/** The earlier links of Routing.php: they climb one level per separator of the current
    path instead of comparing segments, and start at the root when there is nothing to
    climb. Its `methodForRequest` is the same as the later one, `Routing.MethodForRequest`. */
module EarlyRouting {
  import opened Php
  import opened PhpStrings
  import Routing

  /** `makeLink`: `up` is one less than the number of segments of the trimmed current
      path, that is the number of `/` inside it. `query` stands for
      `http_build_query($data)`. */
  function MakeLink(className: string, methodName: string, fromCurrent: string, data: Array<string>, query: string): string {
    var up := |Routing.Segments(fromCurrent)| - 1;
    (if up > 0 then Repeat("../", up) else "/") + className + "/" + methodName + (if |data| > 0 then "?" + query else "")
  }

  /** The levels climbed are the separators inside the trimmed current path. */
  lemma MakeLinkUp(className: string, methodName: string, fromCurrent: string, data: Array<string>, query: string)
    ensures var up := Count(Trim(fromCurrent, {'/'}), '/');
            var lead := if up > 0 then Repeat("../", up) else "/";
            var l := MakeLink(className, methodName, fromCurrent, data, query);
            |l| >= |lead| && l[..|lead|] == lead
  {
    var up := Count(Trim(fromCurrent, {'/'}), '/');
    var lead := if up > 0 then Repeat("../", up) else "/";
    var tail := if |data| > 0 then "?" + query else "";
    assert |Routing.Segments(fromCurrent)| - 1 == up;
    LinkPrefix(lead, className, methodName, tail);
  }

  /** The lead of a link is its prefix, whatever follows it. */
  lemma LinkPrefix(lead: string, className: string, methodName: string, tail: string)
    ensures var l := lead + className + "/" + methodName + tail;
            |l| >= |lead| && l[..|lead|] == lead
  {
    var l := lead + className + "/" + methodName + tail;
    assert l == lead + (className + "/" + methodName + tail);
  }

  /** From the root nothing is climbed: the link is absolute, with no trailing `/`. */
  lemma MakeLinkFromRoot(className: string, methodName: string, data: Array<string>, query: string)
    ensures MakeLink(className, methodName, "/", data, query) ==
              "/" + className + "/" + methodName + (if |data| > 0 then "?" + query else "")
  {
    assert TrimLeft("/", {'/'}) == TrimLeft("", {'/'});
    assert Routing.Segments("/") == [""];
  }

  /** Trimming `/a/b/` leaves `a/b`. */
  lemma TrimTwoLevels(a: string, b: string)
    requires a != [] && b != [] && '/' !in a && '/' !in b
    ensures Trim("/" + a + "/" + b + "/", {'/'}) == a + "/" + b
  {
    var inner := a + "/" + b;
    var t := inner + "/";
    var s := "/" + a + "/" + b + "/";
    assert TrimLeft(s, {'/'}) == t by {
      assert t[0] == a[0];
      assert s == ['/'] + t;
      TrimLeftOne('/', t, {'/'});
    }
    assert TrimRight(t, {'/'}) == inner by {
      assert inner[|inner| - 1] == b[|b| - 1];
      assert t == inner + ['/'];
      TrimRightOne(inner, '/', {'/'});
    }
  }

  /** From `/a/b/` one level is climbed, whatever the two segments are. */
  lemma MakeLinkTwoLevels(a: string, b: string, className: string, methodName: string)
    requires a != [] && b != [] && '/' !in a && '/' !in b
    ensures MakeLink(className, methodName, "/" + a + "/" + b + "/", [], "") == "../" + className + "/" + methodName
  {
    var s := "/" + a + "/" + b + "/";
    TrimTwoLevels(a, b);
    assert a + "/" + b == a + ['/'] + b;
    SplitAfter(a, '/', b);
    SplitNoDelimiter(b, '/');
    assert |Routing.Segments(s)| == 2;
    assert Repeat("../", 1) == "../";
  }
}
