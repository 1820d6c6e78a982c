/** The earlier query builder of SQL.php, over the escapers of DB.php. As in the later
    builder, every builder appends a fragment to `query`, and the flags `haveSelect` and
    `haveWhere` record whether `SELECT ` and ` WHERE ` have been written. */
module EarlySql {
  import opened Php
  import opened PhpStrings
  import opened EarlyDatabase
  import Sql

  /** What `select` and `selectAliased` accept: one field, or an array of them. */
  datatype Fields = FieldName(name: string) | FieldList(fields: Array<string>)

  /** `is_string($fields) ? [$fields] : $fields`. */
  function AsArray(fields: Fields): (a: Array<string>)
    ensures fields.FieldName? ==> a == [(IntKey(0), fields.name)] && IsList(a)
    ensures fields.FieldList? ==> a == fields.fields
  {
    match fields
    case FieldName(name) => ListOf([name])
    case FieldList(fs) => fs
  }

  /** An escaped column list, its names joined by `', '`. */
  function ColumnList(names: seq<string>): string {
    Join(", ", ColumnEscapeEach(names))
  }

  /** `fieldValue`: the stripped column, after the stripped table and a dot when the table
      is truthy, then the operator and the escaped value in single quotes. */
  function FieldValue(db: DB, key: string, value: string, table: Option<string>, operator: string): string {
    var prefix := if table.Some? && Truthy(table.value) then TableEscape(table.value) + "." else "";
    prefix + ColumnEscape(key) + operator + "'" + db.Escape(value) + "'"
  }

  /** A condition names the table first exactly when the table is truthy, never holds a
      quoting character in its column name, and ends with the quoted value. */
  lemma FieldValueShape(db: DB, key: string, value: string, table: Option<string>, operator: string)
    ensures var r := FieldValue(db, key, value, table, operator);
            var t := if table.Some? && Truthy(table.value) then TableEscape(table.value) + "." else "";
            var c := ColumnEscape(key);
            var v := "'" + db.Escape(value) + "'";
            |r| == |t| + |c| + |operator| + |v| && r[..|t|] == t && r[|t|..|t| + |c|] == c &&
            (forall ch :: ch in c ==> ch !in Stripped) && r[|r| - |v|..] == v
  {
    var t := if table.Some? && Truthy(table.value) then TableEscape(table.value) + "." else "";
    var c := ColumnEscape(key);
    Sql.ConditionParts(t, c, operator, db.Escape(value));
  }

  /** The conditions rendered one by one and in order, always with `=`. */
  function Conditions(db: DB, conditions: Array<string>, table: Option<string>): (r: seq<string>)
  {
    seq(|conditions|, i requires 0 <= i < |conditions| =>
      FieldValue(db, Sql.KeyString(conditions[i].0), conditions[i].1, table, "="))
  }

  /** The text a non-empty `where` appends: ` WHERE ` for the first one and ` AND `
      after, then the joined conditions between ` (` and `) `. */
  function WhereClause(haveWhere: bool, values: string): string {
    (if haveWhere then " AND " else " WHERE ") + " (" + values + ") "
  }

  /** The columns `select` writes: the escaped names joined by `', '` and a space, or
      nothing at all for an empty list. */
  function SelectColumns(fields: Array<string>): (r: string)
    ensures fields == [] ==> r == ""
    ensures fields != [] ==> |r| > 0 && r[|r| - 1] == ' '
  {
    if |fields| > 0 then ColumnList(ValuesOf(fields)) + " " else ""
  }

  /** One aliased column: the stripped field name, ` AS `, the escaped alias and a space. */
  function AliasedColumn(key: Key, escapedAlias: string): string {
    ColumnEscape(Sql.KeyString(key)) + " AS " + escapedAlias + " "
  }

  /** The aliased columns `selectAliased` writes, one per field and in order. */
  function Aliased(fields: Array<string>, aliasEscape: string -> string): (r: seq<string>)
  {
    seq(|fields|, i requires 0 <= i < |fields| => AliasedColumn(fields[i].0, aliasEscape(fields[i].1)))
  }

  /** ` AS ` and the escaped alias, only when an alias is given. */
  function AliasSuffix(alias: Option<string>, aliasEscape: string -> string): (r: string)
    ensures alias.None? <==> r == ""
  {
    if alias.Some? then " AS " + aliasEscape(alias.value) else ""
  }

  /** `orderPart`: the stripped column, then ` DESC` for a truthy direction and a space
      otherwise. */
  function OrderPart(sort: string, maybeDesc: Option<string>): string {
    var column := ColumnEscape(sort);
    if maybeDesc.Some? && Truthy(maybeDesc.value) then column + " DESC" else column + " "
  }

  /** The order is descending exactly when the direction is truthy. */
  lemma OrderPartDirection(sort: string, maybeDesc: Option<string>)
    ensures var c := ColumnEscape(sort);
            var r := OrderPart(sort, maybeDesc);
            |r| > |c| && r[..|c|] == c && (r[|c|..] == " DESC" <==> maybeDesc.Some? && Truthy(maybeDesc.value))
  {
    var c := ColumnEscape(sort);
    if maybeDesc.Some? && Truthy(maybeDesc.value) {
      assert OrderPart(sort, maybeDesc)[|c|..] == " DESC";
    } else {
      assert OrderPart(sort, maybeDesc)[|c|..] == " ";
    }
  }

  /** The `LIMIT` clause: the offset `perPage * (page - 1)` and the count `perPage`. */
  function LimitClause(perPage: int, page: int): string {
    " LIMIT " + IntToString(perPage * (page - 1)) + ", " + IntToString(perPage) + " "
  }

  /** The first page starts at offset zero, the second one page further on. */
  lemma LimitOffsets(perPage: int)
    ensures LimitClause(perPage, 1) == " LIMIT 0, " + IntToString(perPage) + " "
    ensures LimitClause(perPage, 2) == " LIMIT " + IntToString(perPage) + ", " + IntToString(perPage) + " "
  {
    assert perPage * (1 - 1) == 0;
    assert IntToString(0) == "0";
    assert perPage * (2 - 1) == perPage;
  }

  /** One record of `insertSQL`: its escaped values, quoted and joined by `', '`, in
      parentheses. */
  function Tuple(db: DB, record: Array<string>): string {
    "('" + Join("', '", db.EscapeEach(ValuesOf(record))) + "')"
  }

  /** A tuple opens with `('` and closes with `')`. */
  lemma TupleShape(db: DB, record: Array<string>)
    ensures var r := Tuple(db, record);
            |r| >= 4 && r[..2] == "('" && r[|r| - 2..] == "')"
  {
    var inner := Join("', '", db.EscapeEach(ValuesOf(record)));
    assert Tuple(db, record) == "('" + inner + "')";
  }

  /** One tuple per record, in order. */
  function Tuples(db: DB, records: seq<Array<string>>): (r: seq<string>)
  {
    seq(|records|, i requires 0 <= i < |records| => Tuple(db, records[i]))
  }

  /** The head of the `INSERT` statement: the stripped table and the first record's keys
      as columns. */
  function InsertHead(table: string, first: Array<string>): string {
    "INSERT INTO " + TableEscape(table) + " (" + ColumnList(Sql.ColumnNames(first)) + ") VALUES "
  }

  /** The `INSERT` statement of `insertSQL`: the head, then one tuple per record joined by
      `', '`. */
  function InsertStatement(db: DB, table: string, records: seq<Array<string>>): string
    requires records != []
  {
    InsertHead(table, records[0]) + Join(", ", Tuples(db, records))
  }

  /** The statement names the table as it starts, and a single record makes a single
      tuple. */
  lemma InsertStatementSingle(db: DB, table: string, record: Array<string>)
    ensures var h := "INSERT INTO " + TableEscape(table) + " (";
            var r := InsertStatement(db, table, [record]);
            |r| >= |h| && r[..|h|] == h
    ensures InsertStatement(db, table, [record]) == InsertHead(table, record) + Tuple(db, record)
  {
    var h := "INSERT INTO " + TableEscape(table) + " (";
    assert Tuples(db, [record]) == [Tuple(db, record)];
    assert InsertHead(table, record) == h + (ColumnList(Sql.ColumnNames(record)) + ") VALUES ");
  }

  /** Appending a separated piece to a text that starts with `head`. */
  lemma AppendPiece(head: string, acc: string, piece: string)
    ensures head + (acc + ", " + piece) == head + acc + ", " + piece
  {
  }

  class SQL {
    const db: DB
    /** The alias escaper `from`, `join` and `selectAliased` call on the database; DB.php
        does not define one, so the model takes it as given. */
    const aliasEscape: string -> string
    var query: string
    var haveSelect: bool
    var haveWhere: bool

    constructor (db: DB, aliasEscape: string -> string)
      ensures this.db == db && this.aliasEscape == aliasEscape
      ensures query == "" && !haveSelect && !haveWhere
    {
      this.db := db;
      this.aliasEscape := aliasEscape;
      query := "";
      haveSelect := false;
      haveWhere := false;
    }

    /** `fieldsValues`: the conditions joined by `', '`. The operator is accepted but not
        passed on, so every condition renders with `=`. */
    method FieldsValues(conditions: Array<string>, table: Option<string>, operator: string) returns (r: string)
      ensures r == PhpStrings.Join(", ", Conditions(db, conditions, table))
    {
      r := "";
      var i := 0;
      ghost var all := Conditions(db, conditions, table);
      while i < |conditions|
        invariant 0 <= i <= |conditions|
        invariant r == PhpStrings.Join(", ", all[..i])
      {
        var piece := FieldValue(db, Sql.KeyString(conditions[i].0), conditions[i].1, table, "=");
        JoinPrefixStep(", ", all, i, r, piece);
        r := if i == 0 then piece else r + ", " + piece;
        i := i + 1;
      }
      assert all[..i] == all;
    }

    /** `insertSQL`: the head, then the tuples of the records separated by `', '`. */
    method InsertSQL(table: string, records: seq<Array<string>>) returns (line: string)
      requires records != []
      ensures line == InsertStatement(db, table, records)
    {
      line := InsertHead(table, records[0]);
      ghost var head := line;
      ghost var tuples := "";
      var i := 0;
      ghost var all := Tuples(db, records);
      while i < |records|
        invariant 0 <= i <= |records| == |all|
        invariant tuples == PhpStrings.Join(", ", all[..i])
        invariant line == head + tuples
      {
        var piece := Tuple(db, records[i]);
        assert piece == all[i];
        JoinPrefixStep(", ", all, i, tuples, piece);
        if i == 0 {
          line := line + piece;
          tuples := piece;
        } else {
          AppendPiece(head, tuples, piece);
          line := line + ", " + piece;
          tuples := tuples + ", " + piece;
        }
        i := i + 1;
      }
      assert all[..i] == all;
    }

    /** `insert`: no statement, and a count of 0, for no records. */
    method Insert(table: string, records: seq<Array<string>>) returns (statement: Option<string>)
      ensures statement.None? <==> records == []
      ensures statement.Some? ==> statement.value == InsertStatement(db, table, records)
    {
      if |records| > 0 {
        var line := InsertSQL(table, records);
        return Some(line);
      }
      return None;
    }

    /** `select`: `SELECT ` only while none has been written, then the columns. */
    method Select(fields: Fields, table: Option<string>)
      modifies this`query, this`haveSelect
      ensures haveSelect
      ensures query == old(query) + ((if old(haveSelect) then "" else "SELECT ") + SelectColumns(AsArray(fields)))
    {
      var ret := if haveSelect then "" else "SELECT ";
      haveSelect := true;
      var fs := AsArray(fields);
      if |fs| > 0 {
        ret := ret + (ColumnList(ValuesOf(fs)) + " ");
      }
      query := query + ret;
    }

    /** The loop of `selectAliased`: one aliased column per field, joined by `', '`. */
    method AliasedList(fields: Array<string>) returns (cols: string)
      ensures cols == PhpStrings.Join(", ", Aliased(fields, aliasEscape))
    {
      cols := "";
      var i := 0;
      ghost var all := Aliased(fields, aliasEscape);
      while i < |fields|
        invariant 0 <= i <= |fields|
        invariant cols == PhpStrings.Join(", ", all[..i])
      {
        var piece := AliasedColumn(fields[i].0, aliasEscape(fields[i].1));
        JoinPrefixStep(", ", all, i, cols, piece);
        cols := if i == 0 then piece else cols + ", " + piece;
        i := i + 1;
      }
      assert all[..i] == all;
    }

    /** `selectAliased`: `SELECT ` only while none has been written, then the aliased
        columns; the table is not used. */
    method SelectAliased(fields: Fields, table: Option<string>)
      modifies this`query, this`haveSelect
      ensures haveSelect
      ensures query == old(query) + ((if old(haveSelect) then "" else "SELECT ")
                                     + PhpStrings.Join(", ", Aliased(AsArray(fields), aliasEscape)))
    {
      var lead := if haveSelect then "" else "SELECT ";
      haveSelect := true;
      var cols := AliasedList(AsArray(fields));
      query := query + (lead + cols);
    }

    /** `from`: ` FROM `, the stripped table and any alias. */
    method From(table: string, alias: Option<string>)
      modifies this`query
      ensures query == old(query) + (" FROM " + TableEscape(table) + AliasSuffix(alias, aliasEscape))
    {
      query := query + (" FROM " + TableEscape(table) + AliasSuffix(alias, aliasEscape));
    }

    /** `join`: ` JOIN `, the stripped table and any alias. */
    method Join(table: string, alias: Option<string>)
      modifies this`query
      ensures query == old(query) + (" JOIN " + TableEscape(table) + AliasSuffix(alias, aliasEscape))
    {
      query := query + (" JOIN " + TableEscape(table) + AliasSuffix(alias, aliasEscape));
    }

    /** `where`: nothing for no conditions; otherwise ` WHERE ` the first time and ` AND `
        after, then the conditions. */
    method Where(conditions: Array<string>, table: Option<string>, operator: string)
      modifies this`query, this`haveWhere
      ensures conditions == [] ==> query == old(query) && haveWhere == old(haveWhere)
      ensures conditions != [] ==>
                haveWhere && query == old(query) + WhereClause(old(haveWhere), PhpStrings.Join(", ", Conditions(db, conditions, table)))
    {
      if |conditions| > 0 {
        var values := FieldsValues(conditions, table, operator);
        query := query + WhereClause(haveWhere, values);
        haveWhere := true;
      }
    }

    /** `order` with a single sort column. */
    method Order(sort: string, maybeDesc: Option<string>)
      modifies this`query
      ensures query == old(query) + (" ORDER BY " + OrderPart(sort, maybeDesc))
    {
      query := query + (" ORDER BY " + OrderPart(sort, maybeDesc));
    }

    /** `limit`. */
    method Limit(perPage: int, page: int)
      modifies this`query
      ensures query == old(query) + LimitClause(perPage, page)
    {
      query := query + LimitClause(perPage, page);
    }
  }
}
