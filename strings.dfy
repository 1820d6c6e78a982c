/** The PHP string functions the framework relies on, as functions on `seq<char>`. */
module PhpStrings {

  /** PHP's truth value of a string: only `""` and `"0"` are false. */
  predicate Truthy(s: string) {
    s != "" && s != "0"
  }

  /** The characters `trim` strips when given no character list. */
  const Whitespace: set<char> := {' ', '\t', '\n', '\r', '\0', '\U{0B}'}

  /** `implode($sep, $parts)`. */
  function Join(sep: string, parts: seq<string>): string {
    if parts == [] then ""
    else if |parts| == 1 then parts[0]
    else parts[0] + sep + Join(sep, parts[1..])
  }

  lemma {:induction false} JoinSnoc(sep: string, parts: seq<string>, x: string)
    ensures Join(sep, parts + [x]) == if parts == [] then x else Join(sep, parts) + sep + x
  {
    if |parts| == 1 {
      assert parts + [x] == [parts[0], x];
    } else if |parts| > 1 {
      assert (parts + [x])[1..] == parts[1..] + [x];
      JoinSnoc(sep, parts[1..], x);
    }
  }

  /** Joining one more element of a list onto the join of the elements before it. */
  lemma JoinPrefixStep(sep: string, all: seq<string>, i: nat, acc: string, piece: string)
    requires i < |all| && acc == Join(sep, all[..i]) && piece == all[i]
    ensures Join(sep, all[..i + 1]) == if i == 0 then piece else acc + sep + piece
  {
    assert all[..i + 1] == all[..i] + [all[i]];
    JoinSnoc(sep, all[..i], all[i]);
  }


  /** The number of occurrences of `c` in `s`. */
  function Count(s: string, c: char): nat {
    if s == [] then 0 else (if s[0] == c then 1 else 0) + Count(s[1..], c)
  }

  lemma {:induction false} CountAppend(a: string, b: string, c: char)
    ensures Count(a + b, c) == Count(a, c) + Count(b, c)
  {
    if a == [] {
      assert a + b == b;
    } else {
      assert (a + b)[0] == a[0] && (a + b)[1..] == a[1..] + b;
      CountAppend(a[1..], b, c);
    }
  }

  lemma {:induction false} CountAbsent(s: string, c: char)
    requires c !in s
    ensures Count(s, c) == 0
  {
    if s != [] {
      assert s == [s[0]] + s[1..];
      CountAbsent(s[1..], c);
    }
  }

  /** `explode($c, $s)` for a one-character delimiter `$c`. */
  function Split(s: string, c: char): (parts: seq<string>)
    ensures |parts| == Count(s, c) + 1
  {
    if s == [] then [""]
    else
      var rest := Split(s[1..], c);
      if s[0] == c then [""] + rest else [[s[0]] + rest[0]] + rest[1..]
  }

  /** The pieces of `explode` hold no delimiter, and gluing them back with it gives the input. */
  lemma {:induction false} SplitJoin(s: string, c: char)
    ensures Join([c], Split(s, c)) == s
    ensures forall p :: p in Split(s, c) ==> c !in p
  {
    if s != [] {
      var rest := Split(s[1..], c);
      SplitJoin(s[1..], c);
      if s[0] == c {
        assert ([""] + rest)[1..] == rest;
      } else {
        var parts := [[s[0]] + rest[0]] + rest[1..];
        assert parts[1..] == rest[1..];
        assert rest == [rest[0]] + rest[1..];
        if |rest| > 1 {
          assert Join([c], rest) == rest[0] + [c] + Join([c], rest[1..]);
        }
        forall p | p in parts ensures c !in p {
          if p != parts[0] {
            assert p in rest;
          } else {
            assert rest[0] in rest;
          }
        }
      }
    }
  }

  lemma {:induction false} SplitNoDelimiter(s: string, c: char)
    requires c !in s
    ensures Split(s, c) == [s]
  {
    if s != [] {
      assert s == [s[0]] + s[1..];
      SplitNoDelimiter(s[1..], c);
    }
  }

  /** A piece free of the delimiter, then the delimiter, starts the pieces of what follows. */
  lemma {:induction false} SplitAfter(a: string, c: char, rest: string)
    requires c !in a
    ensures Split(a + [c] + rest, c) == [a] + Split(rest, c)
  {
    var s := a + [c] + rest;
    if a == [] {
      assert s == [c] + rest;
      assert s[1..] == rest;
    } else {
      assert s[0] == a[0] && s[1..] == a[1..] + [c] + rest;
      assert a == [a[0]] + a[1..];
      SplitAfter(a[1..], c, rest);
    }
  }

  /** Splitting around one delimiter splits the two sides separately. */
  lemma {:induction false} SplitGlue(a: string, c: char, b: string)
    ensures Split(a + [c] + b, c) == Split(a, c) + Split(b, c)
  {
    var s := a + [c] + b;
    if a == [] {
      assert s == [c] + b && s[1..] == b;
    } else {
      assert s[0] == a[0] && s[1..] == a[1..] + [c] + b;
      SplitGlue(a[1..], c, b);
    }
  }

  function TrimLeft(s: string, cs: set<char>): (r: string)
    ensures |r| <= |s|
    ensures r != [] ==> r[0] !in cs
    ensures r == s[|s| - |r|..]
  {
    if s != [] && s[0] in cs then TrimLeft(s[1..], cs) else s
  }

  function TrimRight(s: string, cs: set<char>): (r: string)
    ensures |r| <= |s|
    ensures r != [] ==> r[|r| - 1] !in cs
    ensures r == s[..|r|]
  {
    if s != [] && s[|s| - 1] in cs then TrimRight(s[..|s| - 1], cs) else s
  }

  /** One stripped character before a kept one: exactly that character goes. */
  lemma TrimLeftOne(c: char, t: string, cs: set<char>)
    requires c in cs && t != [] && t[0] !in cs
    ensures TrimLeft([c] + t, cs) == t
  {
    assert ([c] + t)[1..] == t;
  }

  /** One stripped character after a kept one: exactly that character goes. */
  lemma TrimRightOne(t: string, c: char, cs: set<char>)
    requires c in cs && t != [] && t[|t| - 1] !in cs
    ensures TrimRight(t + [c], cs) == t
  {
    assert (t + [c])[..|t|] == t;
  }

  /** `trim($s, $cs)`: strip the characters of `cs` from both ends. */
  function Trim(s: string, cs: set<char>): string {
    TrimRight(TrimLeft(s, cs), cs)
  }

  /** A string with no strippable character at either end is its own trim. */
  lemma TrimUnchanged(s: string, cs: set<char>)
    requires s == [] || (s[0] !in cs && s[|s| - 1] !in cs)
    ensures Trim(s, cs) == s
  {
  }

  /** `str_repeat($s, $n)`. */
  function Repeat(s: string, n: nat): (r: string)
    ensures |r| == n * |s|
  {
    if n == 0 then "" else s + Repeat(s, n - 1)
  }

  /** `str_replace($from, $to, $s)` for single characters. */
  function ReplaceChar(s: string, from: char, to: char): (r: string)
    ensures |r| == |s|
    ensures forall i :: 0 <= i < |s| ==> r[i] == if s[i] == from then to else s[i]
  {
    if s == [] then "" else [if s[0] == from then to else s[0]] + ReplaceChar(s[1..], from, to)
  }

  /** The characters of `s` that satisfy `keep`, in their original order. */
  function Filter(s: string, keep: char -> bool): string {
    if s == [] then ""
    else if keep(s[0]) then [s[0]] + Filter(s[1..], keep)
    else Filter(s[1..], keep)
  }

  /** Filtering never lengthens a string and keeps only characters that pass. */
  lemma {:induction false} FilterSound(s: string, keep: char -> bool)
    ensures |Filter(s, keep)| <= |s|
    ensures forall c :: c in Filter(s, keep) ==> keep(c)
  {
    if s != [] {
      FilterSound(s[1..], keep);
    }
  }

  /** Filtering distributes over concatenation, which is what keeping the order means. */
  lemma {:induction false} FilterAppend(a: string, b: string, keep: char -> bool)
    ensures Filter(a + b, keep) == Filter(a, keep) + Filter(b, keep)
  {
    if a == [] {
      assert a + b == b;
    } else {
      assert (a + b)[0] == a[0] && (a + b)[1..] == a[1..] + b;
      FilterAppend(a[1..], b, keep);
    }
  }

  /** A single character that does not pass is removed. */
  lemma FilterDropsOne(c: char, keep: char -> bool)
    requires !keep(c)
    ensures Filter([c], keep) == ""
  {
    assert [c][1..] == "";
  }

  /** A string made only of kept characters passes unchanged. */
  lemma {:induction false} FilterKeepsAll(s: string, keep: char -> bool)
    requires forall c :: c in s ==> keep(c)
    ensures Filter(s, keep) == s
  {
    if s != [] {
      assert s[0] in s;
      forall c | c in s[1..] ensures keep(c) {
        assert c in s;
      }
      FilterKeepsAll(s[1..], keep);
    }
  }

  lemma FilterIdempotent(s: string, keep: char -> bool)
    ensures Filter(Filter(s, keep), keep) == Filter(s, keep)
  {
    FilterSound(s, keep);
    FilterKeepsAll(Filter(s, keep), keep);
  }

  /** Every kept character occurs as often as in the input; every other is gone. */
  lemma {:induction false} FilterCounts(s: string, keep: char -> bool, c: char)
    ensures multiset(Filter(s, keep))[c] == if keep(c) then multiset(s)[c] else 0
  {
    if s != [] {
      assert s == [s[0]] + s[1..];
      FilterCounts(s[1..], keep, c);
    }
  }

  /** `str_replace([...], '', $s)` for single characters: every character of `cs` is removed. */
  function RemoveChars(s: string, cs: set<char>): (r: string)
    ensures forall c :: c in r ==> c !in cs
  {
    FilterSound(s, c => c !in cs);
    Filter(s, c => c !in cs)
  }

  function DigitChar(d: nat): char
    requires d < 10
  {
    "0123456789"[d]
  }

  function NatToString(n: nat): (r: string)
    ensures r != []
    decreases n
  {
    if n < 10 then [DigitChar(n)] else NatToString(n / 10) + [DigitChar(n % 10)]
  }

  /** `strval($i)` for an integer. */
  function IntToString(i: int): string {
    if i < 0 then "-" + NatToString(-i) else NatToString(i)
  }
}
