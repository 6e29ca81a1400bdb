/**
 * The database layer's SQL builders and its in-memory cache layer.
 * Builders are values: each call takes the builder and returns it with one
 * more clause, and `build` renders the SQL text. Connection pools,
 * transactions and migrations talk to a database server and are not part
 * of this model.
 */
module Database {
  import opened Wrappers
  import opened Text

  datatype QueryType = Select | Insert | Update | Delete | DDL | Other

  datatype SqlQuery = SqlQuery(sql: string, parameters: seq<string>, queryType: QueryType)

  datatype SortDirection = Ascending | Descending

  datatype DatabaseType = PostgreSQL | MySQL | SQLite | MongoDB | Redis | Custom(name: string)

  /** The keyword `order_by` writes after the column. */
  function DirectionKeyword(d: SortDirection): (k: string)
    ensures k == "ASC" <==> d.Ascending?
    ensures k == "DESC" <==> d.Descending?
  {
    match d
    case Ascending => "ASC"
    case Descending => "DESC"
  }

  /**
   * A clause built from a list: nothing when the list is empty, otherwise
   * a space, the keyword and the parts joined by `sep`.
   */
  function ListClause(keyword: string, parts: seq<string>, sep: string): (r: string)
    ensures r == "" <==> parts == []
    ensures parts != [] ==> StartsWith(r, " " + keyword)
  {
    if parts == [] then "" else
      var r := " " + keyword + Join(parts, sep);
      assert r[..|" " + keyword|] == " " + keyword;
      r
  }

  /** A clause with a number: nothing when unset, otherwise a space, the keyword and the number. */
  function NumberClause(keyword: string, n: Option<nat>): (r: string)
    ensures r == "" <==> n.None?
    ensures n.Some? ==> r == " " + keyword + NatToString(n.value)
  {
    if n.None? then "" else " " + keyword + NatToString(n.value)
  }

  // ---------------------------------------------------------------------
  // SELECT
  // ---------------------------------------------------------------------

  datatype SelectBuilder = SelectBuilder(
    table: string,
    columns: seq<string>,
    conditions: seq<string>,
    joins: seq<string>,
    orderBy: seq<string>,
    limit: Option<nat>,
    offset: Option<nat>,
    databaseType: DatabaseType)

  /** `QueryBuilder::select` / `SelectQueryBuilder::new`: no clauses yet. */
  function NewSelect(table: string, columns: seq<string>, dbType: DatabaseType): SelectBuilder {
    SelectBuilder(table, columns, [], [], [], None, None, dbType)
  }

  function Where(b: SelectBuilder, condition: string): SelectBuilder {
    b.(conditions := b.conditions + [condition])
  }

  function AddJoin(b: SelectBuilder, clause: string): SelectBuilder {
    b.(joins := b.joins + [clause])
  }

  /** `order_by`: one more "column ASC" or "column DESC" after the earlier ones. */
  function OrderBy(b: SelectBuilder, column: string, d: SortDirection): (r: SelectBuilder)
    ensures |r.orderBy| == |b.orderBy| + 1 && r.orderBy[|b.orderBy|] == column + " " + DirectionKeyword(d)
    ensures r.orderBy[..|b.orderBy|] == b.orderBy
    ensures r.(orderBy := b.orderBy) == b
  {
    b.(orderBy := b.orderBy + [column + " " + DirectionKeyword(d)])
  }

  function Limit(b: SelectBuilder, n: nat): SelectBuilder {
    b.(limit := Some(n))
  }

  function Offset(b: SelectBuilder, n: nat): SelectBuilder {
    b.(offset := Some(n))
  }

  /** "SELECT cols FROM table" */
  function SelectHead(b: SelectBuilder): string {
    "SELECT " + Join(b.columns, ", ") + " FROM " + b.table
  }

  /** `SelectQueryBuilder::build`. */
  function BuildSelect(b: SelectBuilder): (q: SqlQuery)
    ensures q.queryType == Select && q.parameters == []
    ensures StartsWith(q.sql, SelectHead(b))
  {
    var sql := SelectHead(b)
      + ListClause("", b.joins, " ")
      + ListClause("WHERE ", b.conditions, " AND ")
      + ListClause("ORDER BY ", b.orderBy, ", ")
      + NumberClause("LIMIT ", b.limit)
      + NumberClause("OFFSET ", b.offset);
    assert sql[..|SelectHead(b)|] == SelectHead(b);
    SqlQuery(sql, [], Select)
  }

  function ListPart(keyword: string, parts: seq<string>, sep: string): seq<string> {
    if parts == [] then [] else [keyword + Join(parts, sep)]
  }

  function NumberPart(keyword: string, n: Option<nat>): seq<string> {
    if n.None? then [] else [keyword + NatToString(n.value)]
  }

  /** A list clause joined on with a space is the clause `build` appends. */
  lemma JoinListPart(prefix: seq<string>, keyword: string, parts: seq<string>, sep: string)
    requires prefix != []
    ensures Join(prefix + ListPart(keyword, parts, sep), " ") == Join(prefix, " ") + ListClause(keyword, parts, sep)
  {
    if parts == [] {
      assert prefix + [] == prefix;
    } else {
      JoinSnoc(prefix, keyword + Join(parts, sep), " ");
    }
  }

  lemma JoinNumberPart(prefix: seq<string>, keyword: string, n: Option<nat>)
    requires prefix != []
    ensures Join(prefix + NumberPart(keyword, n), " ") == Join(prefix, " ") + NumberClause(keyword, n)
  {
    if n.None? {
      assert prefix + [] == prefix;
    } else {
      JoinSnoc(prefix, keyword + NatToString(n.value), " ");
    }
  }

  /** The clauses present, in the fixed order head, joins, WHERE, ORDER BY, LIMIT, OFFSET. */
  function SelectClauses(b: SelectBuilder): seq<string> {
    [SelectHead(b)]
      + ListPart("", b.joins, " ")
      + ListPart("WHERE ", b.conditions, " AND ")
      + ListPart("ORDER BY ", b.orderBy, ", ")
      + NumberPart("LIMIT ", b.limit)
      + NumberPart("OFFSET ", b.offset)
  }

  /**
   * The SQL of a SELECT is its present clauses separated by single
   * spaces, in the fixed order, whatever order the builder calls came in.
   */
  lemma SelectIsClauses(b: SelectBuilder)
    ensures BuildSelect(b).sql == Join(SelectClauses(b), " ")
  {
    var c0 := [SelectHead(b)];
    var c1 := c0 + ListPart("", b.joins, " ");
    var c2 := c1 + ListPart("WHERE ", b.conditions, " AND ");
    var c3 := c2 + ListPart("ORDER BY ", b.orderBy, ", ");
    var c4 := c3 + NumberPart("LIMIT ", b.limit);
    JoinListPart(c0, "", b.joins, " ");
    JoinListPart(c1, "WHERE ", b.conditions, " AND ");
    JoinListPart(c2, "ORDER BY ", b.orderBy, ", ");
    JoinNumberPart(c3, "LIMIT ", b.limit);
    JoinNumberPart(c4, "OFFSET ", b.offset);
  }

  /** Clause calls of different kinds commute, and a later limit or offset replaces an earlier one. */
  lemma SelectCallsCommute(b: SelectBuilder, c: string, j: string, col: string, d: SortDirection, x: nat, y: nat)
    ensures BuildSelect(Where(OrderBy(b, col, d), c)) == BuildSelect(OrderBy(Where(b, c), col, d))
    ensures BuildSelect(AddJoin(Where(b, c), j)) == BuildSelect(Where(AddJoin(b, j), c))
    ensures BuildSelect(Limit(Limit(b, x), y)) == BuildSelect(Limit(b, y))
    ensures BuildSelect(Offset(Limit(b, x), y)) == BuildSelect(Limit(Offset(b, y), x))
  {
  }

  /** A select with no clause is just its head. */
  lemma BareSelect(table: string, columns: seq<string>, dbType: DatabaseType)
    ensures BuildSelect(NewSelect(table, columns, dbType)).sql == "SELECT " + Join(columns, ", ") + " FROM " + table
  {
  }

  // ---------------------------------------------------------------------
  // INSERT, UPDATE, DELETE
  // ---------------------------------------------------------------------

  datatype InsertBuilder = InsertBuilder(table: string, columns: seq<string>, values: seq<string>, databaseType: DatabaseType)

  function NewInsert(table: string, dbType: DatabaseType): InsertBuilder {
    InsertBuilder(table, [], [], dbType)
  }

  /** `value`: the column and its value are pushed together. */
  function Value(b: InsertBuilder, column: string, value: string): InsertBuilder {
    b.(columns := b.columns + [column], values := b.values + [value])
  }

  /** Every column has its value at the same position. */
  predicate Paired(b: InsertBuilder) {
    |b.columns| == |b.values|
  }

  /** `value` keeps columns and values paired, and the i-th value is the one given with the i-th column. */
  lemma ValueKeepsPairs(b: InsertBuilder, column: string, value: string)
    requires Paired(b)
    ensures Paired(Value(b, column, value))
    ensures var r := Value(b, column, value);
      r.columns[|b.columns|] == column && r.values[|b.values|] == value
  {
  }

  /** `InsertQueryBuilder::build`: one column list and one value list, in the order given. */
  function BuildInsert(b: InsertBuilder): (q: SqlQuery)
    ensures q.queryType == Insert && q.parameters == []
    ensures StartsWith(q.sql, "INSERT INTO " + b.table + " (" + Join(b.columns, ", ") + ") VALUES (")
    ensures q.sql[|q.sql| - 1] == ')'
    ensures var head := "INSERT INTO " + b.table + " (" + Join(b.columns, ", ") + ") VALUES (";
      |head| < |q.sql| && q.sql[|head|..|q.sql| - 1] == Join(b.values, ", ")
  {
    SqlQuery("INSERT INTO " + b.table + " (" + Join(b.columns, ", ") + ") VALUES (" + Join(b.values, ", ") + ")", [], Insert)
  }

  /** An insert with no values still renders, with empty column and value lists. */
  lemma EmptyInsert(table: string, dbType: DatabaseType)
    ensures BuildInsert(NewInsert(table, dbType)).sql == "INSERT INTO " + table + " () VALUES ()"
  {
  }

  datatype UpdateBuilder = UpdateBuilder(table: string, sets: seq<string>, conditions: seq<string>, databaseType: DatabaseType)

  function NewUpdate(table: string, dbType: DatabaseType): UpdateBuilder {
    UpdateBuilder(table, [], [], dbType)
  }

  /** `set`: one more "column = value" assignment. */
  function Set(b: UpdateBuilder, column: string, value: string): UpdateBuilder {
    b.(sets := b.sets + [column + " = " + value])
  }

  function UpdateWhere(b: UpdateBuilder, condition: string): UpdateBuilder {
    b.(conditions := b.conditions + [condition])
  }

  function BuildUpdate(b: UpdateBuilder): (q: SqlQuery)
    ensures q.queryType == Update && q.parameters == []
    ensures StartsWith(q.sql, "UPDATE " + b.table + " SET " + Join(b.sets, ", "))
    ensures b.conditions == [] ==> q.sql == "UPDATE " + b.table + " SET " + Join(b.sets, ", ")
    ensures b.conditions != [] ==>
      q.sql == "UPDATE " + b.table + " SET " + Join(b.sets, ", ") + " WHERE " + Join(b.conditions, " AND ")
  {
    var head := "UPDATE " + b.table + " SET " + Join(b.sets, ", ");
    var sql := head + ListClause("WHERE ", b.conditions, " AND ");
    assert sql[..|head|] == head;
    SqlQuery(sql, [], Update)
  }

  datatype DeleteBuilder = DeleteBuilder(table: string, conditions: seq<string>, databaseType: DatabaseType)

  function NewDelete(table: string, dbType: DatabaseType): DeleteBuilder {
    DeleteBuilder(table, [], dbType)
  }

  function DeleteWhere(b: DeleteBuilder, condition: string): DeleteBuilder {
    b.(conditions := b.conditions + [condition])
  }

  function BuildDelete(b: DeleteBuilder): (q: SqlQuery)
    ensures q.queryType == Delete && q.parameters == []
    ensures StartsWith(q.sql, "DELETE FROM " + b.table)
    ensures b.conditions == [] ==> q.sql == "DELETE FROM " + b.table
    ensures b.conditions != [] ==> q.sql == "DELETE FROM " + b.table + " WHERE " + Join(b.conditions, " AND ")
  {
    var head := "DELETE FROM " + b.table;
    var sql := head + ListClause("WHERE ", b.conditions, " AND ");
    assert sql[..|head|] == head;
    SqlQuery(sql, [], Delete)
  }

  // ---------------------------------------------------------------------
  // The in-memory cache layer
  // ---------------------------------------------------------------------

  /**
   * `MemoryCacheLayer`: bytes by key with the time they were stored. The
   * time-to-live argument of `set` is accepted and ignored, so entries
   * never expire.
   */
  class MemoryCacheLayer {
    var entries: map<string, (seq<bv8>, nat)>

    constructor()
      ensures entries == map[]
    {
      entries := map[];
    }

    method Get(key: string) returns (r: Option<seq<bv8>>)
      ensures r.Some? <==> key in entries
      ensures r.Some? ==> r.value == entries[key].0
    {
      if key in entries {
        r := Some(entries[key].0);
      } else {
        r := None;
      }
    }

    /** `set`: stores the bytes with the current time; `ttl` plays no part. */
    method Set(key: string, value: seq<bv8>, ttl: Option<nat>, now: nat)
      modifies this
      ensures entries == old(entries)[key := (value, now)]
    {
      entries := entries[key := (value, now)];
    }

    /** `delete`: true exactly when the key was there; it is gone afterwards. */
    method Delete(key: string) returns (existed: bool)
      modifies this
      ensures existed <==> key in old(entries)
      ensures entries == old(entries) - {key}
    {
      existed := key in entries;
      entries := entries - {key};
    }

    method Clear()
      modifies this
      ensures entries == map[]
    {
      entries := map[];
    }
  }

  /** Whatever the time-to-live, a stored value is read back, and a second delete finds nothing. */
  method StoreReadDelete(key: string, value: seq<bv8>, ttl: Option<nat>, now: nat) returns (read: Option<seq<bv8>>, first: bool, second: bool)
    ensures read == Some(value)
    ensures first && !second
  {
    var layer := new MemoryCacheLayer();
    layer.Set(key, value, ttl, now);
    read := layer.Get(key);
    first := layer.Delete(key);
    second := layer.Delete(key);
  }
}
