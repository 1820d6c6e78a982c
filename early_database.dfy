/** The earlier PDO wrapper of DB.php: the driver name read back out of the DSN, the
    dialect it selects, and the escapers that strip quoting characters. */
module EarlyDatabase {
  import opened Php
  import opened PhpStrings

  /** The characters `tableEscape` and `columnEscape` remove. */
  const Stripped: set<char> := {'`', '"', '\'', '|'}

  /** The text before the first line break (all of `s` when there is none). */
  function LineOf(s: string): (l: string)
    ensures |l| <= |s| && l == s[..|l|] && '\n' !in l
    ensures |l| < |s| ==> s[|l|] == '\n'
    ensures '\n' !in s ==> l == s
  {
    if s == [] || s[0] == '\n' then "" else [s[0]] + LineOf(s[1..])
  }

  /** The text before the last occurrence of `c`. */
  function BeforeLast(s: string, c: char): (r: string)
    requires c in s
    ensures |r| < |s| && r == s[..|r|] && s[|r|] == c
    ensures c !in s[|r| + 1..]
  {
    if s[|s| - 1] == c then s[..|s| - 1]
    else
      assert c in s[..|s| - 1] by {
        var i :| 0 <= i < |s| && s[i] == c;
        assert s[..|s| - 1][i] == c;
      }
      var r := BeforeLast(s[..|s| - 1], c);
      assert s[|r| + 1..] == s[..|s| - 1][|r| + 1..] + [s[|s| - 1]];
      r
  }

  /** `preg_match('/(.*):/', $dsn, $matches)` and `$matches[1]`: the leftmost match
      starts on the first line that holds a colon (`.` never crosses a line break), and
      the greedy `.*` runs up to that line's last colon. No colon at all, no match. */
  function DbType(dsn: string): (r: Option<string>)
    ensures r.Some? <==> ':' in dsn
    ensures r.Some? ==> '\n' !in r.value
    ensures r.Some? && '\n' !in dsn ==>
              |r.value| < |dsn| && dsn[..|r.value|] == r.value && dsn[|r.value|] == ':' &&
              ':' !in dsn[|r.value| + 1..]
    decreases |dsn|
  {
    var line := LineOf(dsn);
    if ':' in line then
      if '\n' in dsn then Some(BeforeLast(line, ':'))
      else
        assert line == dsn;
        Some(BeforeLast(line, ':'))
    else if |line| < |dsn| then
      var rest := dsn[|line| + 1..];
      assert dsn == line + ['\n'] + rest;
      DbType(rest)
    else
      assert line == dsn;
      None
  }

  /** The match is greedy: a DSN with a further colon (an IPv6 host, say) yields a type
      that is no driver name, so the dialect falls back to the default. */
  lemma DbTypeGreedy()
    ensures DbType("pgsql:host=::1") == Some("pgsql:host=:")
  {
    var dsn := "pgsql:host=::1";
    assert '\n' !in dsn;
    assert dsn[..13] == "pgsql:host=::";
    assert BeforeLast(dsn, ':') == BeforeLast("pgsql:host=::", ':');
    assert "pgsql:host=::"[..12] == "pgsql:host=:";
  }

  /** The identifier quote: `"` for pgsql and sqlsrv, a backtick for mysql and any other type. */
  function QuoteChar(dbType: string): (q: char)
    ensures q == '"' <==> dbType == "pgsql" || dbType == "sqlsrv"
    ensures q != '"' ==> q == '`'
  {
    match dbType
    case "pgsql" => '"'
    case "sqlsrv" => '"'
    case _ => '`'
  }

  /** The random-order function: `RANDOM()` for pgsql only, `RAND()` for every other type. */
  function RandomFunc(dbType: string): (f: string)
    ensures f == "RANDOM()" <==> dbType == "pgsql"
    ensures f != "RANDOM()" ==> f == "RAND()"
  {
    match dbType
    case "pgsql" => "RANDOM()"
    case _ => "RAND()"
  }

  class DB {
    const dsn: string
    /** The driver's `PDO::quote`, which the model does not see into. */
    const quote: string -> string
    var dbType: string
    var columnQuoteChar: char
    var randomFuncSQL: string

    /** The constructor parses the type out of the DSN and switches on it. PDO refuses a
        DSN without a colon before that, so one is required here. */
    constructor (dsn: string, userName: string, password: string, quote: string -> string)
      requires ':' in dsn
      ensures this.dsn == dsn && this.quote == quote && Some(dbType) == DbType(dsn)
      ensures columnQuoteChar == QuoteChar(dbType) && randomFuncSQL == RandomFunc(dbType)
    {
      this.dsn := dsn;
      this.quote := quote;
      var matches := DbType(dsn);
      dbType := matches.value;
      new;
      if dbType == "pgsql" {
        columnQuoteChar := '"';
        randomFuncSQL := "RANDOM()";
      } else if dbType == "sqlsrv" {
        columnQuoteChar := '"';
        randomFuncSQL := "RAND()";
      } else {
        columnQuoteChar := '`';
        randomFuncSQL := "RAND()";
      }
    }

    /** `escape` of a string: the quoted literal without its first and last character,
        the quoting applied to the value passed in. */
    function Escape(value: string): string {
      var q := quote(value);
      if |q| >= 2 then q[1..|q| - 1] else ""
    }

    /** `escape` of an array: every value escaped, in order. */
    function EscapeEach(values: seq<string>): (r: seq<string>)
    {
      seq(|values|, i requires 0 <= i < |values| => Escape(values[i]))
    }
  }

  /** `tableEscape`: the name without any backtick, double quote, single quote or bar. */
  function TableEscape(s: string): (r: string)
    ensures forall c :: c in r ==> c !in Stripped
    ensures (forall c :: c in s ==> c !in Stripped) ==> r == s
  {
    NothingToStrip(s);
    RemoveChars(s, Stripped)
  }

  lemma NothingToStrip(s: string)
    ensures (forall c :: c in s ==> c !in Stripped) ==> RemoveChars(s, Stripped) == s
  {
    if forall c :: c in s ==> c !in Stripped {
      FilterKeepsAll(s, c => c !in Stripped);
    }
  }

  /** Every other character survives as often as it occurs. */
  lemma {:induction false} TableEscapeCounts(s: string, c: char)
    ensures multiset(TableEscape(s))[c] == if c in Stripped then 0 else multiset(s)[c]
  {
    FilterCounts(s, c => c !in Stripped, c);
  }

  /** ... and in the same order. */
  lemma {:induction false} TableEscapeAppend(a: string, b: string)
    ensures TableEscape(a + b) == TableEscape(a) + TableEscape(b)
  {
    FilterAppend(a, b, c => c !in Stripped);
  }

  lemma TableEscapeIdempotent(s: string)
    ensures TableEscape(TableEscape(s)) == TableEscape(s)
  {
  }

  /** `columnEscape` on a string strips the same characters as `tableEscape`. */
  function ColumnEscape(s: string): (r: string)
    ensures r == TableEscape(s)
  {
    RemoveChars(s, Stripped)
  }

  /** `columnEscape` on an array: every name escaped, in order. */
  function ColumnEscapeEach(names: seq<string>): (r: seq<string>)
  {
    seq(|names|, i requires 0 <= i < |names| => ColumnEscape(names[i]))
  }
}
