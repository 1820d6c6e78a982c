/** The query builder of src/SQL.php. Every builder appends a fragment to `query`; the
    flags `haveSelect` and `haveWhere` record whether `SELECT ` and ` WHERE ` have been
    written, so later calls write nothing or ` AND ` instead. */
module Sql {
  import opened Php
  import opened PhpStrings
  import opened Database

  /** A key handed to a string parameter: integers become their decimal text. */
  function KeyString(k: Key): string {
    match k
    case IntKey(i) => IntToString(i)
    case StrKey(s) => s
  }

  /** `array_keys($record)` as column names. */
  function ColumnNames(record: Array<string>): (names: seq<string>)
  {
    seq(|record|, i requires 0 <= i < |record| => KeyString(record[i].0))
  }

  /** The pieces of `explode(',', $s)`, each trimmed. */
  function TrimmedPieces(s: string): (ps: seq<string>)
  {
    var parts := Split(s, ',');
    seq(|parts|, i requires 0 <= i < |parts| => Trim(parts[i], Whitespace))
  }

  /** `array_diff($pieces, [''])` on the list of pieces from index `from` on: the empty
      pieces go, the others keep their keys. */
  function NonEmptyFrom(pieces: seq<string>, from: nat): (a: Array<string>)
    requires from <= |pieces|
    ensures forall e :: e in a ==>
              e.0.IntKey? && from <= e.0.i < |pieces| && e.1 == pieces[e.0.i] && e.1 != ""
    ensures ValuesOf(a) == NonEmpty(pieces[from..])
    decreases |pieces| - from
  {
    if from == |pieces| then []
    else
      var rest := NonEmptyFrom(pieces, from + 1);
      assert pieces[from..] == [pieces[from]] + pieces[from + 1..];
      if pieces[from] == "" then rest else [(IntKey(from), pieces[from])] + rest
  }

  /** The non-empty strings of `ps`, in order. */
  function NonEmpty(ps: seq<string>): (r: seq<string>)
    ensures forall p :: p in r ==> p in ps && p != ""
  {
    if ps == [] then []
    else if ps[0] == "" then NonEmpty(ps[1..])
    else [ps[0]] + NonEmpty(ps[1..])
  }

  /** `splitByComma` as written: the trimmed, non-empty pieces, each still under the key
      of its position among all the pieces. */
  function SplitByCommaAsWritten(s: string): (a: Array<string>)
    ensures forall e :: e in a ==>
              e.0.IntKey? && 0 <= e.0.i < |Split(s, ',')| &&
              e.1 == Trim(Split(s, ',')[e.0.i], Whitespace) && e.1 != ""
  {
    NonEmptyFrom(TrimmedPieces(s), 0)
  }

  /** An empty piece before a later one leaves a gap in the keys, so the result is no list
      and `select` takes the pieces for aliases of the columns `0`, `2`, ... */
  lemma SplitByCommaLeavesGaps(x: string, y: string)
    requires x != "" && ',' !in x && x[0] !in Whitespace && x[|x| - 1] !in Whitespace
    requires y != "" && ',' !in y && y[0] !in Whitespace && y[|y| - 1] !in Whitespace
    ensures SplitByCommaAsWritten(x + ",," + y) == [(IntKey(0), x), (IntKey(2), y)]
    ensures !IsList(SplitByCommaAsWritten(x + ",," + y))
  {
    GapPieces(x, y);
    GapKeys(x, y);
    var r := SplitByCommaAsWritten(x + ",," + y);
    assert r[1].0 != IntKey(1);
  }

  /** `array_diff` on `[x, '', y]` keeps `x` and `y` under their positions. */
  lemma GapKeys(x: string, y: string)
    requires x != "" && y != ""
    ensures NonEmptyFrom([x, "", y], 0) == [(IntKey(0), x), (IntKey(2), y)]
  {
    var pieces := [x, "", y];
    var tail := [(IntKey(2), y)];
    assert NonEmptyFrom(pieces, 3) == [];
    assert NonEmptyFrom(pieces, 2) == tail;
    assert NonEmptyFrom(pieces, 1) == tail;
  }

  /** The trimmed pieces of `x,,y`. */
  lemma GapPieces(x: string, y: string)
    requires ',' !in x && x != "" && x[0] !in Whitespace && x[|x| - 1] !in Whitespace
    requires ',' !in y && y != "" && y[0] !in Whitespace && y[|y| - 1] !in Whitespace
    ensures TrimmedPieces(x + ",," + y) == [x, "", y]
  {
    var s := x + ",," + y;
    assert Split(s, ',') == [x, "", y] by {
      assert s == x + [','] + ("" + [','] + y);
      SplitAfter(x, ',', "" + [','] + y);
      SplitAfter("", ',', y);
      SplitNoDelimiter(y, ',');
    }
    TrimUnchanged(x, Whitespace);
    TrimUnchanged("", Whitespace);
    TrimUnchanged(y, Whitespace);
  }

  /** The characters of a trimmed string all come from the string. */
  lemma TrimmedFrom(s: string, c: char)
    requires c in Trim(s, Whitespace)
    ensures c in s
  {
    var l := TrimLeft(s, Whitespace);
    var r := TrimRight(l, Whitespace);
    var i :| 0 <= i < |r| && r[i] == c;
    assert l[i] == c;
    assert s[|s| - |l| + i] == c;
  }

  /** `splitByComma` as intended: the trimmed, non-empty pieces as a list. */
  function SplitByComma(s: string): (a: Array<string>)
    ensures IsList(a) && ValuesOf(a) == ValuesOf(SplitByCommaAsWritten(s))
    ensures forall p :: p in ValuesOf(a) ==> p != "" && ',' !in p && p == Trim(p, Whitespace)
  {
    var vs := ValuesOf(SplitByCommaAsWritten(s));
    var a := ListOf(vs);
    SplitByCommaPieces(s);
    a
  }

  lemma SplitByCommaPieces(s: string)
    ensures forall p :: p in ValuesOf(SplitByCommaAsWritten(s)) ==> p != "" && ',' !in p && p == Trim(p, Whitespace)
  {
    var pieces := TrimmedPieces(s);
    assert ValuesOf(SplitByCommaAsWritten(s)) == NonEmpty(pieces[0..]);
    assert pieces[0..] == pieces;
    SplitJoin(s, ',');
    forall p | p in ValuesOf(SplitByCommaAsWritten(s))
      ensures p != "" && ',' !in p && p == Trim(p, Whitespace)
    {
      assert p in pieces;
      var i :| 0 <= i < |pieces| && pieces[i] == p;
      var part := Split(s, ',')[i];
      assert part in Split(s, ',');
      if ',' in p {
        TrimmedFrom(part, ',');
      }
      TrimIdempotent(part);
    }
  }

  lemma TrimIdempotent(s: string)
    ensures Trim(Trim(s, Whitespace), Whitespace) == Trim(s, Whitespace)
  {
    var t := Trim(s, Whitespace);
    var l := TrimLeft(s, Whitespace);
    if t != [] {
      assert t[0] == l[0];
      assert TrimLeft(t, Whitespace) == t;
      assert TrimRight(t, Whitespace) == t;
    }
  }

  /** Where the parts of a condition `prefix column operator 'value'` sit in its text. */
  lemma ConditionParts(prefix: string, column: string, operator: string, value: string)
    ensures var r := prefix + column + operator + "'" + value + "'";
            var v := "'" + value + "'";
            |r| == |prefix| + |column| + |operator| + |v| && r[..|prefix|] == prefix &&
            r[|prefix|..|prefix| + |column|] == column && r[|r| - |v|..] == v
  {
    var v := "'" + value + "'";
    var r := prefix + column + operator + "'" + value + "'";
    assert r == prefix + column + operator + v;
  }

  /** What `select` accepts: a comma-separated string, or an array of columns (a list) or
      of column-to-alias pairs (any other array). */
  datatype Columns = ColumnString(s: string) | ColumnArray(a: Array<string>)

  /** The sorting and paging keys `orderLimit` reads. */
  datatype PagingParams = PagingParams(sort: Option<string>, order: Option<string>,
                                       perPage: Option<int>, page: Option<int>)

  /** `$pagingParams['page'] ?? 1`, read for the page and, as written, for the page size. */
  function LimitArgumentsAsWritten(params: PagingParams): (r: (int, int))
    ensures r.0 == r.1
  {
    var page := if params.page.Some? then params.page.value else 1;
    (page, page)
  }

  /** The size given under `per_page` is ignored: ten per page, page three, fetches three. */
  lemma LimitIgnoresPerPage()
    ensures LimitArgumentsAsWritten(PagingParams(None, None, Some(10), Some(3))) == (3, 3)
  {
  }

  /** The page size as intended: the value under `per_page`, with the page defaulting to 1. */
  function LimitArguments(params: PagingParams): (r: (int, int))
    requires params.perPage.Some?
    ensures r.0 == params.perPage.value
    ensures r.1 == if params.page.Some? then params.page.value else 1
  {
    (params.perPage.value, if params.page.Some? then params.page.value else 1)
  }

  /** The join keywords `left`, `right`, `inner`, `outer`, `cross` and `natural`. */
  datatype JoinKind = LEFT | RIGHT | INNER | OUTER | CROSS | NATURAL
  {
    function Keyword(): (k: string)
      ensures |k| >= 4 && k[0] == ' ' && k[|k| - 1] == ' '
    {
      match this
      case LEFT => " LEFT "
      case RIGHT => " RIGHT "
      case INNER => " INNER "
      case OUTER => " OUTER "
      case CROSS => " CROSS "
      case NATURAL => " NATURAL "
    }
  }

  /** The records `insert` accepts: a list of records, or one record given flat. */
  datatype Records = Rows(rows: seq<Array<string>>) | Flat(record: Array<string>)
  {
    function Count(): nat {
      match this
      case Rows(rows) => |rows|
      case Flat(record) => |record|
    }

    /** `is_array(reset($records)) ? $records : [$records]`. */
    function AsRows(): (rows: seq<Array<string>>)
      ensures Flat? ==> rows == [record]
      ensures Rows? ==> rows == this.rows
    {
      match this
      case Rows(rows) => rows
      case Flat(record) => [record]
    }
  }

  class SQL {
    const db: DB
    var query: string
    var haveSelect: bool
    var haveWhere: bool

    constructor (db: DB)
      ensures this.db == db && query == "" && !haveSelect && !haveWhere
    {
      this.db := db;
      query := "";
      haveSelect := false;
      haveWhere := false;
    }

    /** `fieldValue`: the column, optionally qualified by a truthy table, the operator and
        the escaped value in single quotes. */
    function FieldValue(key: string, value: string, table: Option<string>, operator: string): string
      reads db
    {
      var prefix := if table.Some? && Truthy(table.value) then db.TableEscape(table.value) + "." else "";
      prefix + db.ColumnEscape(Name(key), None) + operator + "'" + db.Escape(value) + "'"
    }

    /** A condition starts with the escaped table and a dot exactly when the table is
        truthy, and always ends with the escaped value in single quotes. */
    lemma FieldValueShape(key: string, value: string, table: Option<string>, operator: string)
      ensures var r := FieldValue(key, value, table, operator);
              var t := if table.Some? && Truthy(table.value) then db.TableEscape(table.value) + "." else "";
              var v := "'" + db.Escape(value) + "'";
              |r| >= |t| + |v| && r[..|t|] == t && r[|r| - |v|..] == v
    {
      var t := if table.Some? && Truthy(table.value) then db.TableEscape(table.value) + "." else "";
      ConditionParts(t, db.ColumnEscape(Name(key), None), operator, db.Escape(value));
    }

    /** The conditions rendered one by one and in order, always with `=`. */
    function Conditions(conditions: Array<string>, table: Option<string>): (r: seq<string>)
      reads db
    {
      seq(|conditions|, i requires 0 <= i < |conditions| reads db =>
        FieldValue(KeyString(conditions[i].0), conditions[i].1, table, "="))
    }

    /** `fieldsValues`: the conditions joined by `', '`. The operator is accepted but not
        passed on, so every condition renders with `=`. */
    method FieldsValues(conditions: Array<string>, table: Option<string>, operator: string) returns (r: string)
      ensures r == PhpStrings.Join(", ", Conditions(conditions, table))
    {
      r := "";
      var i := 0;
      ghost var all := Conditions(conditions, table);
      while i < |conditions|
        invariant 0 <= i <= |conditions|
        invariant r == PhpStrings.Join(", ", all[..i])
      {
        var piece := FieldValue(KeyString(conditions[i].0), conditions[i].1, table, "=");
        JoinPrefixStep(", ", all, i, r, piece);
        if i == 0 {
          r := piece;
        } else {
          r := r + ", " + piece;
        }
        i := i + 1;
      }
      assert all[..i] == all;
    }

    /** One aliased column: `col AS alias `. */
    function AliasedColumn(key: Key, alias: string, table: Option<string>): string
      reads db
    {
      db.ColumnEscape(Name(KeyString(key)), table) + " AS " + db.AliasEscape(alias) + " "
    }

    /** The aliased columns of a non-list field array, one per pair and in order. */
    function Aliased(fields: Array<string>, table: Option<string>): (r: seq<string>)
      reads db
    {
      seq(|fields|, i requires 0 <= i < |fields| reads db => AliasedColumn(fields[i].0, fields[i].1, table))
    }

    /** The text `select` writes after any `SELECT `: `* ` for no columns, the escaped
        list otherwise, or for column-to-alias pairs `col AS alias ` joined by `', '`. */
    function SelectColumns(fields: Array<string>, table: Option<string>): (r: string)
      reads db
      ensures fields == [] ==> r == "* "
      ensures IsList(fields) && fields != [] ==> r == db.ColumnEscape(Names(ValuesOf(fields)), None) + " "
    {
      if IsList(fields) then
        if |fields| > 0 then db.ColumnEscape(Names(ValuesOf(fields)), table) + " " else "* "
      else PhpStrings.Join(", ", Aliased(fields, table))
    }

    /** The field array `select` works on: a string is split at its commas. */
    function FieldArray(fields: Columns): (a: Array<string>)
      ensures fields.ColumnString? ==> IsList(a)
      ensures fields.ColumnArray? ==> a == fields.a
    {
      match fields
      case ColumnString(s) => SplitByComma(s)
      case ColumnArray(a) => a
    }

    /** The loop of `select` over column-to-alias pairs: `col AS alias ` for each pair,
        joined by `', '`. */
    method AliasedList(fs: Array<string>, table: Option<string>) returns (cols: string)
      ensures cols == PhpStrings.Join(", ", Aliased(fs, table))
    {
      cols := "";
      var i := 0;
      ghost var all := Aliased(fs, table);
      while i < |fs|
        invariant 0 <= i <= |fs|
        invariant cols == PhpStrings.Join(", ", all[..i])
      {
        var piece := AliasedColumn(fs[i].0, fs[i].1, table);
        JoinPrefixStep(", ", all, i, cols, piece);
        if i == 0 {
          cols := piece;
        } else {
          cols := cols + ", " + piece;
        }
        i := i + 1;
      }
      assert all[..i] == all;
    }

    /** `select`: `SELECT ` only while none has been written, then the columns. */
    method Select(fields: Columns, table: Option<string>)
      modifies this`query, this`haveSelect
      ensures haveSelect
      ensures query == old(query) + ((if old(haveSelect) then "" else "SELECT ")
                       + SelectColumns(FieldArray(fields), table))
    {
      var lead := if haveSelect then "" else "SELECT ";
      haveSelect := true;
      var fs := FieldArray(fields);
      var cols;
      if IsList(fs) {
        cols := if |fs| > 0 then db.ColumnEscape(Names(ValuesOf(fs)), table) + " " else "* ";
      } else {
        cols := AliasedList(fs, table);
      }
      query := query + (lead + cols);
    }

    /** The argument of `COUNT(...)` as written: a dot, then the escaped table, then the
        column, so a table yields `.`table``column``. */
    function CountTargetAsWritten(field: Option<string>, table: Option<string>): (r: string)
      reads db
      ensures table.None? && field.None? ==> r == "*"
    {
      (if table.None? then "" else "." + db.TableEscape(table.value)) +
      (if field.None? then "*" else db.ColumnEscape(Name(field.value), None))
    }

    /** With a table, the count target as written starts with a dot and runs the quoted
        table straight into the quoted column, with no dot between them. */
    lemma CountTargetMisplacesDot(field: string, table: string)
      requires forall c :: c in field ==> IsWordChar(c)
      requires forall c :: c in table ==> IsWordChar(c)
      ensures var l, r := db.columnQuoteCharLeft, db.columnQuoteCharRight;
              CountTargetAsWritten(Some(field), Some(table)) == "." + [l] + table + [r] + [l] + field + [r]
    {
      var l, r := db.columnQuoteCharLeft, db.columnQuoteCharRight;
      assert db.TableEscape(table) == [l] + table + [r] by {
        NoSpecialsWordString(table);
      }
      assert db.ColumnEscape(Name(field), None) == [l] + field + [r] by {
        NoSpecialsWordString(field);
      }
    }

    /** The argument of `COUNT(...)` as intended: the column (or `*`) qualified by the
        escaped table and a dot. */
    function CountTarget(field: Option<string>, table: Option<string>): string
      reads db
    {
      (if table.None? then "" else db.TableEscape(table.value) + ".") +
      (if field.None? then "*" else db.ColumnEscape(Name(field.value), None))
    }

    /** A counted column is the column as `columnEscape` qualifies it by the table; with
        no column every row of the (qualified) table is counted. */
    lemma CountTargetQualifies(field: Option<string>, table: Option<string>)
      ensures field.Some? ==> CountTarget(field, table) == db.ColumnEscape(Name(field.value), table)
      ensures field.None? ==>
                CountTarget(field, table) == (if table.None? then "" else db.TableEscape(table.value) + ".") + "*"
    {
    }

    /** The text `count` appends: ` COUNT(...) ` and an optional escaped alias. */
    function CountClause(field: Option<string>, table: Option<string>, alias: Option<string>): string
      reads db
    {
      " COUNT(" + CountTarget(field, table) + ") " +
      (if alias.None? then "" else " AS " + db.AliasEscape(alias.value) + " ")
    }

    /** `count`. */
    method Count(field: Option<string>, table: Option<string>, alias: Option<string>)
      modifies this`query
      ensures query == old(query) + CountClause(field, table, alias)
    {
      query := query + CountClause(field, table, alias);
    }

    /** `from`: marks the select as begun, though the `SELECT ` it prepares is overwritten,
        and appends ` FROM ` with the escaped table and any alias. */
    method From(table: string, alias: Option<string>)
      modifies this`query, this`haveSelect
      ensures haveSelect
      ensures query == old(query) + " FROM " + db.TableEscape(table)
                       + (if alias.Some? then " AS " + db.AliasEscape(alias.value) else "")
    {
      var ret := "";
      if !haveSelect {
        ret := ret + "SELECT ";
        haveSelect := true;
      }
      ret := " FROM " + db.TableEscape(table);
      ret := ret + (if alias.Some? then " AS " + db.AliasEscape(alias.value) else "");
      query := query + ret;
    }

    /** `left`, `right`, `inner`, `outer`, `cross`, `natural`: the keyword between spaces. */
    method Qualify(kind: JoinKind)
      modifies this`query
      ensures query == old(query) + kind.Keyword()
    {
      query := query + kind.Keyword();
    }

    /** `join`: ` JOIN ` with the escaped table and any alias. */
    method Join(table: string, alias: Option<string>)
      modifies this`query
      ensures query == old(query) + " JOIN " + db.TableEscape(table)
                       + (if alias.Some? then " AS " + db.AliasEscape(alias.value) else "")
    {
      var ret := " JOIN " + db.TableEscape(table);
      ret := ret + (if alias.Some? then " AS " + db.AliasEscape(alias.value) else "");
      query := query + ret;
    }

    /** The text a non-empty `where` appends: ` WHERE ` for the first one and ` AND `
        after, then the joined conditions in parentheses. */
    function WhereClause(haveWhere: bool, values: string): string {
      (if haveWhere then " AND " else " WHERE ") + "(" + values + ")"
    }

    /** `where`: nothing for no conditions; otherwise ` WHERE ` the first time and ` AND `
        after, then the conditions in parentheses. */
    method Where(conditions: Array<string>, table: Option<string>, operator: string)
      modifies this`query, this`haveWhere
      ensures conditions == [] ==> query == old(query) && haveWhere == old(haveWhere)
      ensures conditions != [] ==>
                haveWhere && query == old(query) + WhereClause(old(haveWhere), PhpStrings.Join(", ", Conditions(conditions, table)))
    {
      if |conditions| > 0 {
        var values := FieldsValues(conditions, table, operator);
        query := query + WhereClause(haveWhere, values);
        haveWhere := true;
      }
    }

    /** One `column = 'value'` condition, as `eq`, `lt`, `lte`, `gt` and `gte` all write it. */
    function Comparison(column: string, value: string, table: Option<string>): (r: string)
      reads db
      ensures r == PhpStrings.Join(", ", Conditions([(StrKey(column), value)], table))
    {
      FieldValue(column, value, table, "=")
    }

    /** `eq`: a single condition. */
    method Eq(column: string, value: string, table: Option<string>)
      modifies this`query, this`haveWhere
      ensures haveWhere
      ensures query == old(query) + WhereClause(old(haveWhere), Comparison(column, value, table))
    {
      Where([(StrKey(column), value)], table, "");
    }

    /** `lt`: asks for `<`, which the conditions never render. */
    method Lt(column: string, value: string, table: Option<string>)
      modifies this`query, this`haveWhere
      ensures haveWhere
      ensures query == old(query) + WhereClause(old(haveWhere), Comparison(column, value, table))
    {
      Where([(StrKey(column), value)], table, "<");
    }

    /** `lte`: asks for `<=`, rendered as `=`. */
    method Lte(column: string, value: string, table: Option<string>)
      modifies this`query, this`haveWhere
      ensures haveWhere
      ensures query == old(query) + WhereClause(old(haveWhere), Comparison(column, value, table))
    {
      Where([(StrKey(column), value)], table, "<=");
    }

    /** `gt`: asks for `>`, rendered as `=`. */
    method Gt(column: string, value: string, table: Option<string>)
      modifies this`query, this`haveWhere
      ensures haveWhere
      ensures query == old(query) + WhereClause(old(haveWhere), Comparison(column, value, table))
    {
      Where([(StrKey(column), value)], table, ">");
    }

    /** `gte`: asks for `>=`, rendered as `=`. */
    method Gte(column: string, value: string, table: Option<string>)
      modifies this`query, this`haveWhere
      ensures haveWhere
      ensures query == old(query) + WhereClause(old(haveWhere), Comparison(column, value, table))
    {
      Where([(StrKey(column), value)], table, ">=");
    }

    /** `group`: ` GROUP BY ` and the escaped columns; one name counts as a list of one. */
    method Group(groupBy: Identifiers)
      modifies this`query
      ensures query == old(query) + " GROUP BY "
                       + db.ColumnEscape(Names(if groupBy.Name? then [groupBy.name] else groupBy.names), None)
    {
      var cols := if groupBy.Name? then [groupBy.name] else groupBy.names;
      query := query + " GROUP BY " + db.ColumnEscape(Names(cols), None);
    }

    /** `orderPart`: the escaped column, then ` DESC` for a truthy direction and a space
        otherwise. */
    function OrderPart(sort: string, maybeDesc: Option<string>): string
      reads db
    {
      var column := db.ColumnEscape(Name(sort), None);
      if maybeDesc.Some? && Truthy(maybeDesc.value) then column + " DESC" else column + " "
    }

    /** The escaped column comes first, and the order is descending exactly when the
        direction is truthy: a missing direction, `""` and `"0"` all sort ascending. */
    lemma OrderPartDirection(sort: string, maybeDesc: Option<string>)
      ensures var c := db.ColumnEscape(Name(sort), None);
              var r := OrderPart(sort, maybeDesc);
              |r| > |c| && r[..|c|] == c
      ensures var c := db.ColumnEscape(Name(sort), None);
              var r := OrderPart(sort, maybeDesc);
              r[|c|..] == " DESC" <==> maybeDesc.Some? && Truthy(maybeDesc.value)
    {
      var c := db.ColumnEscape(Name(sort), None);
      if maybeDesc.Some? && Truthy(maybeDesc.value) {
        assert OrderPart(sort, maybeDesc)[|c|..] == " DESC";
      } else {
        assert OrderPart(sort, maybeDesc)[|c|..] == " ";
      }
    }

    /** The text `order` appends for a single sort column. */
    function OrderClause(sort: string, maybeDesc: Option<string>): string
      reads db
    {
      " ORDER BY " + OrderPart(sort, maybeDesc)
    }

    /** `order` with a single sort column. */
    method Order(sort: string, maybeDesc: Option<string>)
      modifies this`query
      ensures query == old(query) + OrderClause(sort, maybeDesc)
    {
      query := query + OrderClause(sort, maybeDesc);
    }

    /** `random`: the dialect's random function between spaces. */
    method Random()
      modifies this`query
      ensures query == old(query) + " " + db.randomFuncSQL + " "
    {
      query := query + " " + db.randomFuncSQL + " ";
    }

    /** The `LIMIT` clause: the offset `perPage * (page - 1)` and the count `perPage`. */
    function LimitClause(perPage: int, page: int): string {
      " LIMIT " + IntToString(perPage * (page - 1)) + ", " + IntToString(perPage) + " "
    }

    /** `limit`. */
    method Limit(perPage: int, page: int)
      modifies this`query
      ensures query == old(query) + LimitClause(perPage, page)
    {
      query := query + LimitClause(perPage, page);
    }

    /** The sort clause `orderLimit` appends: only when a sort is given. */
    function OrderPiece(params: PagingParams): string
      reads db
    {
      if params.sort.Some? then OrderClause(params.sort.value, params.order) else ""
    }

    /** The limit clause `orderLimit` appends: only when a page size is given. */
    function LimitPiece(params: PagingParams): string {
      if params.perPage.Some? then LimitClause(LimitArguments(params).0, LimitArguments(params).1) else ""
    }

    /** `orderLimit`: a sort when `sort` is given, then a limit when `per_page` is given,
        with the page size taken from `per_page`. */
    method OrderLimit(params: PagingParams)
      modifies this`query
      ensures query == old(query) + OrderPiece(params) + LimitPiece(params)
    {
      if params.sort.Some? {
        Order(params.sort.value, params.order);
      } else {
        assert query == query + "";
      }
      ghost var mid := query;
      if params.perPage.Some? {
        Limit(LimitArguments(params).0, LimitArguments(params).1);
      } else {
        assert query == mid + "";
      }
    }

    /** One record of `insert`: its escaped values, quoted and joined by `', '`, in
        parentheses. */
    function Tuple(record: Array<string>): string
      reads db
    {
      "('" + PhpStrings.Join("', '", EscapeValues(ValuesOf(record))) + "')"
    }

    function EscapeValues(values: seq<string>): (r: seq<string>)
      reads db
      ensures |r| == |values|
      ensures forall i :: 0 <= i < |values| ==> r[i] == db.Escape(values[i])
    {
      if values == [] then [] else [db.Escape(values[0])] + EscapeValues(values[1..])
    }

    /** One tuple per record, in order. */
    function Tuples(rows: seq<Array<string>>): (r: seq<string>)
      reads db
    {
      seq(|rows|, i requires 0 <= i < |rows| reads db => Tuple(rows[i]))
    }

    /** The loop of `insert` over the records: their tuples joined by `', '`. */
    method JoinTuples(rows: seq<Array<string>>) returns (values: string)
      ensures values == PhpStrings.Join(", ", Tuples(rows))
    {
      values := "";
      var i := 0;
      ghost var all := Tuples(rows);
      while i < |rows|
        invariant 0 <= i <= |rows|
        invariant values == PhpStrings.Join(", ", all[..i])
      {
        var piece := Tuple(rows[i]);
        JoinPrefixStep(", ", all, i, values, piece);
        values := if i == 0 then piece else values + ", " + piece;
        i := i + 1;
      }
      assert all[..i] == all;
    }

    /** The `INSERT` statement for some records: the escaped table, the first record's keys
        as columns, then one tuple per record joined by `', '`. */
    function InsertStatement(table: string, rows: seq<Array<string>>): (r: string)
      requires rows != []
      reads db
    {
      var columns := ColumnNames(rows[0]);
      "INSERT INTO " + db.TableEscape(table) + " (" + db.ColumnEscape(Names(columns), None) + ") VALUES "
        + PhpStrings.Join(", ", Tuples(rows))
    }

    /** The statement half of `insert`: no statement for no records; a flat record is
        inserted as a single row. */
    method InsertQuery(table: string, records: Records) returns (q: Option<string>)
      ensures q.None? <==> records.Count() == 0
      ensures q.Some? ==> q.value == InsertStatement(table, records.AsRows())
    {
      if records.Count() == 0 {
        return None;
      }
      var rows := records.AsRows();
      var columns := ColumnNames(rows[0]);
      var head := "INSERT INTO " + db.TableEscape(table) + " (" + db.ColumnEscape(Names(columns), None) + ") VALUES ";
      var values := JoinTuples(rows);
      var query := head + values;
      return Some(query);
    }
  }
}
