/** Request routing and relative links of src/Routing.php. A request path names a
    controller and one of its methods as its first two segments; a link to a controller
    action climbs out of the segments of the current path that it does not share. */
module Routing {
  import opened Php
  import opened PhpStrings

  /** What `methodForRequest` resolves a path to: the `index` function, or a controller
      and action name pair. */
  datatype Route = IndexRoute | ControllerMethod(controller: string, action: string)

  /** `methodForRequest`, given the path part of the request URI: `/` is the index; a path
      of three or more `/`-separated parts names the controller and action in parts one
      and two; anything else has no handler. */
  function MethodForRequest(path: string): (r: Option<Route>)
    ensures path == "/" ==> r == Some(IndexRoute)
    ensures path != "/" && Count(path, '/') >= 2 ==>
              r == Some(ControllerMethod(Split(path, '/')[1], Split(path, '/')[2]))
    ensures path != "/" && Count(path, '/') < 2 ==> r == None
  {
    var urlParts := Split(path, '/');
    if path == "/" then Some(IndexRoute)
    else if |urlParts| >= 3 then Some(ControllerMethod(urlParts[1], urlParts[2]))
    else None
  }

  /** A path `/controller/method`, optionally followed by more segments, routes to that
      controller and method: later segments are ignored. */
  lemma MethodForRequestParts(controller: string, action: string, tail: string)
    requires '/' !in controller && '/' !in action
    requires tail == [] || tail[0] == '/'
    ensures MethodForRequest("/" + controller + "/" + action + tail) == Some(ControllerMethod(controller, action))
  {
    var path := "/" + controller + "/" + action + tail;
    var afterFirst := controller + "/" + action + tail;
    assert path == "" + ['/'] + afterFirst;
    SplitAfter("", '/', afterFirst);
    assert afterFirst == controller + ['/'] + (action + tail);
    SplitAfter(controller, '/', action + tail);
    var rest := Split(action + tail, '/');
    if tail == [] {
      assert action + tail == action;
      SplitNoDelimiter(action, '/');
    } else {
      assert action + tail == action + ['/'] + tail[1..];
      SplitAfter(action, '/', tail[1..]);
    }
    assert Split(path, '/') == [""] + ([controller] + rest) && rest[0] == action;
    assert |path| >= 2;
  }

  /** The segments of the current path: `explode('/', trim($fromCurrent, '/'))`. */
  function Segments(fromCurrent: string): (segs: seq<string>)
    ensures |segs| >= 1
  {
    Split(Trim(fromCurrent, {'/'}), '/')
  }

  /** The length of the longest common leading run of two segment lists. */
  function CommonPrefix(a: seq<string>, b: seq<string>): (k: nat)
    ensures k <= |a| && k <= |b|
    ensures forall j :: 0 <= j < k ==> a[j] == b[j]
    ensures k == |a| || k == |b| || a[k] != b[k]
  {
    if a != [] && b != [] && a[0] == b[0] then 1 + CommonPrefix(a[1..], b[1..]) else 0
  }

  /** The common run is the only one that is followed by a difference or an end. */
  lemma {:induction false} CommonPrefixUnique(a: seq<string>, b: seq<string>, k: nat)
    requires k <= |a| && k <= |b|
    requires forall j :: 0 <= j < k ==> a[j] == b[j]
    requires k == |a| || k == |b| || a[k] != b[k]
    ensures k == CommonPrefix(a, b)
  {
    if k > 0 {
      assert a[0] == b[0];
      forall j | 0 <= j < k - 1 ensures a[1..][j] == b[1..][j] {
        assert a[j + 1] == b[j + 1];
      }
      CommonPrefixUnique(a[1..], b[1..], k - 1);
    }
  }

  /** The link text: one `../` per current segment left over, the target segments left
      over joined by `/` with a trailing `/`, and `?` with the query only for non-empty
      data. */
  function LinkText(up: nat, target: seq<string>, data: Array<string>, query: string): string {
    (if up > 0 then Repeat("../", up) else "") + Join("/", target) + "/" + (if |data| > 0 then "?" + query else "")
  }

  /** What `makeLink` returns, as a function of its inputs. */
  function Link(className: string, methodName: string, fromCurrent: string, data: Array<string>, query: string): string {
    var source := Segments(fromCurrent);
    var target := [className, methodName];
    var k := CommonPrefix(source, target);
    LinkText(|source| - k, target[k..], data, query)
  }

  /** `makeLink`: drops the leading segments the current path and `[class, method]` share,
      then builds the link. `query` stands for `http_build_query($data)`. */
  method MakeLink(className: string, methodName: string, fromCurrent: string, data: Array<string>, query: string)
    returns (ret: string)
    ensures ret == Link(className, methodName, fromCurrent, data, query)
  {
    var source := Segments(fromCurrent);
    var target := [className, methodName];
    ghost var s0, t0 := source, target;
    ghost var k := 0;
    while |source| > 0 && |target| > 0 && source[0] == target[0]
      invariant k <= |s0| && k <= |t0| && source == s0[k..] && target == t0[k..]
      invariant forall j :: 0 <= j < k ==> s0[j] == t0[j]
    {
      assert s0[k] == source[0] && t0[k] == target[0];
      source := source[1..];
      target := target[1..];
      k := k + 1;
    }
    assert Link(className, methodName, fromCurrent, data, query) == LinkText(|source|, target, data, query) by {
      CommonPrefixUnique(s0, t0, k);
    }
    ret := if |source| > 0 then Repeat("../", |source|) else "";
    ret := ret + Join("/", target) + "/";
    ret := ret + (if |data| > 0 then "?" + query else "");
  }

  /** The root path has a single, empty segment. */
  lemma RootSegments()
    ensures Segments("/") == [""]
  {
    assert TrimLeft("/", {'/'}) == TrimLeft("", {'/'});
  }

  /** From the root the current segments are `[""]`, so a non-empty class name shares
      nothing with them and the link climbs one level. */
  lemma LinkFromRoot(className: string, methodName: string, data: Array<string>, query: string)
    requires className != ""
    ensures Link(className, methodName, "/", data, query) ==
              "../" + (className + "/" + methodName) + "/" + (if |data| > 0 then "?" + query else "")
  {
    var target := [className, methodName];
    var j := Join("/", target);
    assert j == className + "/" + methodName by {
      JoinSnoc("/", [className], methodName);
    }
    var r := Repeat("../", 1);
    assert r == "../";
    assert Link(className, methodName, "/", data, query) == r + j + "/" + (if |data| > 0 then "?" + query else "") by {
      RootSegments();
      assert CommonPrefix([""], target) == 0;
      assert target[0..] == target;
    }
  }
}
