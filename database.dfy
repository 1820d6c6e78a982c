/** The SQL-text half of the PDO wrapper in src/DB.php: the DSN it builds, the dialect
    (identifier quotes and random function) chosen by the driver name, and the identifier
    escapers that keep only word characters. */
module Database {
  import opened Php
  import opened PhpStrings

  /** A character the pattern `[A-Za-z0-9_]` accepts. */
  predicate IsWordChar(c: char) {
    'A' <= c <= 'Z' || 'a' <= c <= 'z' || '0' <= c <= '9' || c == '_'
  }

  /** `makeDSN`: the driver name and a colon, then `host=...` and `dbname=...`, each only
      when the value is truthy, with nothing between the two. */
  function MakeDSN(driver: string, host: string, database: string): (dsn: string)
    ensures |dsn| == |driver| + 1 + (if Truthy(host) then 5 + |host| else 0)
                                 + (if Truthy(database) then 7 + |database| else 0)
    ensures dsn[..|driver| + 1] == driver + ":"
    ensures Truthy(host) ==> dsn[|driver| + 1..|driver| + 6 + |host|] == "host=" + host
    ensures Truthy(database) ==> dsn[|dsn| - 7 - |database|..] == "dbname=" + database
  {
    driver + ":" + (if Truthy(host) then "host=" + host else "")
               + (if Truthy(database) then "dbname=" + database else "")
  }

  /** With neither a host nor a database name (PHP counts `"0"` as empty) the DSN is the
      bare driver prefix; with both, the two segments run together. */
  lemma MakeDSNSegments(driver: string)
    ensures MakeDSN(driver, "", "0") == driver + ":"
    ensures MakeDSN("mysql", "h", "d") == "mysql:host=hdbname=d"
  {
  }

  /** Escapes only ever keep word characters, in order (`preg_replace('/[^A-Za-z0-9_]/', '', ...)`). */
  function NoSpecials(s: string): string {
    Filter(s, IsWordChar)
  }

  /** What survives escaping is made of word characters and is no longer than the input. */
  lemma NoSpecialsWords(s: string)
    ensures |NoSpecials(s)| <= |s|
    ensures forall c :: c in NoSpecials(s) ==> IsWordChar(c)
  {
    FilterSound(s, IsWordChar);
  }

  lemma {:induction false} NoSpecialsIdempotent(s: string)
    ensures NoSpecials(NoSpecials(s)) == NoSpecials(s)
  {
    FilterIdempotent(s, IsWordChar);
  }

  /** Word characters keep their order: escaping distributes over concatenation. */
  lemma {:induction false} NoSpecialsAppend(a: string, b: string)
    ensures NoSpecials(a + b) == NoSpecials(a) + NoSpecials(b)
  {
    FilterAppend(a, b, IsWordChar);
  }

  /** Every word character survives as often as it occurs; nothing else does. */
  lemma {:induction false} NoSpecialsCounts(s: string, c: char)
    ensures multiset(NoSpecials(s))[c] == if IsWordChar(c) then multiset(s)[c] else 0
  {
    FilterCounts(s, IsWordChar, c);
  }

  /** An identifier that is already made of word characters passes unchanged. */
  lemma {:induction false} NoSpecialsWordString(s: string)
    ensures (forall c :: c in s ==> IsWordChar(c)) ==> NoSpecials(s) == s
  {
    if forall c :: c in s ==> IsWordChar(c) {
      FilterKeepsAll(s, IsWordChar);
    }
  }

  /** What `columnEscape` accepts: one name, or a list of names. */
  datatype Identifiers = Name(name: string) | Names(names: seq<string>)

  class DB {
    /** The DSN handed to PDO; the connection itself is not part of this model. */
    const dsn: string
    /** `PDO::quote` of the connection: the driver's quoting of a string literal. */
    const quote: string -> string
    var columnQuoteCharLeft: char
    var columnQuoteCharRight: char
    var randomFuncSQL: string

    /** The fields hold one of the three dialects `setDatabaseParameters` knows. */
    predicate Valid()
      reads this
    {
      (columnQuoteCharLeft, columnQuoteCharRight, randomFuncSQL) in
        {('`', '`', "RAND()"), ('[', ']', "RAND()"), ('"', '"', "RANDOM()")}
    }

    constructor (driver: string, database: string, host: string, username: string, password: string,
                 quote: string -> string)
      ensures Valid()
      ensures dsn == MakeDSN(driver, host, database) && this.quote == quote
      ensures driver == "mysql" ==>
                columnQuoteCharLeft == '`' && columnQuoteCharRight == '`' && randomFuncSQL == "RAND()"
      ensures driver == "sqlsrv" ==>
                columnQuoteCharLeft == '[' && columnQuoteCharRight == ']' && randomFuncSQL == "RAND()"
      ensures driver != "mysql" && driver != "sqlsrv" ==>
                columnQuoteCharLeft == '"' && columnQuoteCharRight == '"' && randomFuncSQL == "RANDOM()"
    {
      dsn := MakeDSN(driver, host, database);
      this.quote := quote;
      new;
      SetDatabaseParameters(driver);
    }

    /** `setDatabaseParameters`: MySQL quotes with backticks, SQL Server with brackets, and
        PostgreSQL, like any driver not listed, with double quotes and `RANDOM()`. */
    method SetDatabaseParameters(driver: string)
      modifies this`columnQuoteCharLeft, this`columnQuoteCharRight, this`randomFuncSQL
      ensures Valid()
      ensures driver == "mysql" ==>
                columnQuoteCharLeft == '`' && columnQuoteCharRight == '`' && randomFuncSQL == "RAND()"
      ensures driver == "sqlsrv" ==>
                columnQuoteCharLeft == '[' && columnQuoteCharRight == ']' && randomFuncSQL == "RAND()"
      ensures driver != "mysql" && driver != "sqlsrv" ==>
                columnQuoteCharLeft == '"' && columnQuoteCharRight == '"' && randomFuncSQL == "RANDOM()"
    {
      if driver == "mysql" {
        columnQuoteCharLeft, columnQuoteCharRight, randomFuncSQL := '`', '`', "RAND()";
      } else if driver == "sqlsrv" {
        columnQuoteCharLeft, columnQuoteCharRight, randomFuncSQL := '[', ']', "RAND()";
      } else {
        columnQuoteCharLeft, columnQuoteCharRight, randomFuncSQL := '"', '"', "RANDOM()";
      }
    }

    /** `tableEscape`: the dialect's quotes around the word characters of the name. */
    function TableEscape(s: string): string
      reads this
    {
      [columnQuoteCharLeft] + NoSpecials(s) + [columnQuoteCharRight]
    }

    /** An escaped table name opens and closes with the dialect's quotes and holds only
        word characters between them. */
    lemma TableEscapeShape(s: string)
      ensures var r := TableEscape(s);
              |r| >= 2 && r[0] == columnQuoteCharLeft && r[|r| - 1] == columnQuoteCharRight &&
              r[1..|r| - 1] == NoSpecials(s) && forall c :: c in r[1..|r| - 1] ==> IsWordChar(c)
    {
      NoSpecialsWords(s);
    }

    /** The quotes are not word characters, so escaping twice changes nothing. */
    lemma TableEscapeIdempotent(s: string)
      requires Valid()
      ensures TableEscape(TableEscape(s)) == TableEscape(s)
    {
      var l, r, inner := columnQuoteCharLeft, columnQuoteCharRight, NoSpecials(s);
      assert !IsWordChar(l) && !IsWordChar(r);
      assert NoSpecials([l]) == [] && NoSpecials([r]) == [] by {
        FilterDropsOne(l, IsWordChar);
        FilterDropsOne(r, IsWordChar);
      }
      NoSpecialsAppend([l] + inner, [r]);
      NoSpecialsAppend([l], inner);
      NoSpecialsIdempotent(s);
      assert NoSpecials(TableEscape(s)) == inner;
    }

    /** `escape` of a string: the driver's quoted literal without its first and last
        character (`substr(..., 1, -1)`, empty when the literal is shorter than two). */
    function Escape(value: string): string
      reads this
    {
      var q := quote(value);
      if |q| >= 2 then q[1..|q| - 1] else ""
    }

    /** Putting back the first and last character of the literal restores it. */
    lemma EscapeStripsEnds(value: string)
      ensures var q := quote(value);
              (|q| >= 2 ==> q == [q[0]] + Escape(value) + [q[|q| - 1]]) && (|q| < 2 ==> Escape(value) == "")
    {
      var q := quote(value);
      if |q| >= 2 {
        assert q == [q[0]] + q[1..|q| - 1] + [q[|q| - 1]];
      }
    }

    /** `columnEscape` as written: a list is the `', '`-join of its names, each escaped
        without a table; a single name is quoted, and a table, escaped with its own quotes,
        goes with a dot inside the column's opening quote. */
    function ColumnEscapeAsWritten(toEscape: Identifiers, table: Option<string>): (r: string)
      reads this
      ensures toEscape.Name? && table.Some? ==>
                r == [columnQuoteCharLeft] + TableEscape(table.value) + "." + TableEscape(toEscape.name)[1..]
      ensures !(toEscape.Name? && table.Some?) ==> r == ColumnEscape(toEscape, table)
    {
      match toEscape
      case Names(names) => Join(", ", EscapeEach(names))
      case Name(name) =>
        var prefix := if table.Some? then TableEscape(table.value) + "." else "";
        [columnQuoteCharLeft] + prefix + NoSpecials(name) + [columnQuoteCharRight]
    }

    /** The table's quotes end up nested inside the column's: the result opens with two
        left quotes and the column name has no quote of its own before it. */
    lemma ColumnEscapeNestsQuotes(name: string, table: string)
      requires forall c :: c in name ==> IsWordChar(c)
      requires forall c :: c in table ==> IsWordChar(c)
      ensures var l, r := columnQuoteCharLeft, columnQuoteCharRight;
              ColumnEscapeAsWritten(Name(name), Some(table)) == [l, l] + table + [r] + "." + name + [r]
    {
      var l, r := columnQuoteCharLeft, columnQuoteCharRight;
      assert TableEscape(table) == [l] + table + [r] by {
        NoSpecialsWordString(table);
      }
      assert NoSpecials(name) == name by {
        NoSpecialsWordString(name);
      }
    }

    /** `columnEscape` as intended: a list as above; a single name quoted on its own, after
        the escaped table and a dot when a table is given. */
    function ColumnEscape(toEscape: Identifiers, table: Option<string>): (r: string)
      reads this
      ensures toEscape.Name? && table.None? ==> r == TableEscape(toEscape.name)
    {
      match toEscape
      case Names(names) => Join(", ", EscapeEach(names))
      case Name(name) => (if table.Some? then TableEscape(table.value) + "." else "") + TableEscape(name)
    }

    /** A qualified column splits at its one dot into the escaped table and the escaped
        column: no escaped identifier holds a dot. */
    lemma QualifiedColumnParts(name: string, table: string)
      requires Valid()
      ensures Split(ColumnEscape(Name(name), Some(table)), '.') == [TableEscape(table), TableEscape(name)]
    {
      var t, n := TableEscape(table), TableEscape(name);
      assert '.' !in t by {
        assert t == [columnQuoteCharLeft] + NoSpecials(table) + [columnQuoteCharRight];
        NoSpecialsWords(table);
      }
      assert '.' !in n by {
        assert n == [columnQuoteCharLeft] + NoSpecials(name) + [columnQuoteCharRight];
        NoSpecialsWords(name);
      }
      assert ColumnEscape(Name(name), Some(table)) == t + ['.'] + n;
      SplitAfter(t, '.', n);
      SplitNoDelimiter(n, '.');
    }

    /** `array_map($this->columnEscape(...), ...)`: each name escaped on its own. */
    function EscapeEach(names: seq<string>): (r: seq<string>)
      reads this
      ensures |r| == |names|
      ensures forall i :: 0 <= i < |names| ==> r[i] == TableEscape(names[i])
    {
      if names == [] then [] else [TableEscape(names[0])] + EscapeEach(names[1..])
    }

    /** A list ignores the table, and `n` names escape to exactly `n` comma-separated
        columns: no escaped name can hold a comma. */
    lemma {:induction false} ColumnListCommas(names: seq<string>, table: Option<string>)
      requires Valid()
      ensures ColumnEscape(Names(names), table) == ColumnEscape(Names(names), None)
      ensures Count(ColumnEscape(Names(names), table), ',') == if names == [] then 0 else |names| - 1
    {
      if names != [] {
        var first := TableEscape(names[0]);
        assert ',' !in first by {
          assert first == [columnQuoteCharLeft] + NoSpecials(names[0]) + [columnQuoteCharRight];
        NoSpecialsWords(names[0]);
        }
        CountAbsent(first, ',');
        if |names| > 1 {
          ColumnListCommas(names[1..], table);
          var rest := Join(", ", EscapeEach(names[1..]));
          assert EscapeEach(names) == [first] + EscapeEach(names[1..]);
          assert Join(", ", EscapeEach(names)) == first + ", " + rest;
          CountAppend(first + ", ", rest, ',');
          CountAppend(first, ", ", ',');
        } else {
          assert EscapeEach(names) == [first];
        }
      }
    }

    /** `aliasEscape`: the word characters only, unquoted. */
    function AliasEscape(s: string): string
      reads this
    {
      NoSpecials(s)
    }

    /** An alias keeps only word characters, and one made of them is left as it is. */
    lemma AliasEscapeWords(s: string)
      ensures forall c :: c in AliasEscape(s) ==> IsWordChar(c)
      ensures (forall c :: c in s ==> IsWordChar(c)) ==> AliasEscape(s) == s
    {
      NoSpecialsWords(s);
      NoSpecialsWordString(s);
    }
  }
}
