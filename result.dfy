/** The result a controller action returns (src/Result.php): data for the view, an HTTP
    status code and headers, and optionally a redirect to another action, which merges
    more data and headers in. */
module Results {
  import opened Php

  /** What `getResponse` builds: the data, code and headers, and whether and where to
      redirect (`null`, here `None`, when there is no redirect). */
  datatype Response = Response(data: Array<Value>, responseCode: Option<int>, headers: Array<Value>,
                               isRedirect: bool, redirectMethod: Option<Callback>)

  /** `if ($responseCode) { $this->responseCode = $responseCode; }`: only a non-null,
      non-zero code replaces the current one. */
  function KeptCode(current: Option<int>, given: Option<int>): (r: Option<int>)
    ensures r == current || r == given
    ensures r == given <== given.Some? && given.value != 0
    ensures r == current <== given.None? || given.value == 0
  {
    if given.Some? && given.value != 0 then given else current
  }

  /** The code left by a series of redirects with the given codes. */
  function KeptCodes(current: Option<int>, given: seq<Option<int>>): Option<int> {
    if given == [] then current else KeptCode(KeptCodes(current, given[..|given| - 1]), given[|given| - 1])
  }

  /** After several redirects the code is the last non-zero one given, or the first one
      when none was. */
  lemma {:induction false} KeptCodeLastGiven(current: Option<int>, given: seq<Option<int>>)
    ensures var r := KeptCodes(current, given);
            (exists i :: 0 <= i < |given| && given[i].Some? && given[i].value != 0) ==>
              exists i :: 0 <= i < |given| && r == given[i] && r.Some? && r.value != 0 &&
                forall j :: i < j < |given| ==> given[j].None? || given[j].value == 0
    ensures (forall i :: 0 <= i < |given| ==> given[i].None? || given[i].value == 0) ==>
              KeptCodes(current, given) == current
    decreases |given|
  {
    if given != [] {
      var init := given[..|given| - 1];
      var last := given[|given| - 1];
      KeptCodeLastGiven(current, init);
      if last.Some? && last.value != 0 {
        assert KeptCodes(current, given) == given[|given| - 1];
      } else {
        assert KeptCodes(current, given) == KeptCodes(current, init);
        forall i | 0 <= i < |init| ensures init[i] == given[i] { }
        if exists i :: 0 <= i < |given| && given[i].Some? && given[i].value != 0 {
          var i :| 0 <= i < |given| && given[i].Some? && given[i].value != 0;
          assert i < |init| && init[i] == given[i];
        }
      }
    }
  }

  class Result {
    var data: Array<Value>
    var responseCode: Option<int>
    var headers: Array<Value>
    var isRedirect: bool
    /** `None` until `redirect` sets it: the typed property has no default value. */
    var redirectMethod: Option<Callback>

    /** Whether the redirect flag and target were set together, as only `redirect` does. */
    predicate Valid()
      reads this
    {
      isRedirect <==> redirectMethod.Some?
    }

    constructor(data: Array<Value>, responseCode: Option<int>, headers: Array<Value>)
      ensures Valid()
      ensures this.data == data && this.responseCode == responseCode && this.headers == headers
      ensures !isRedirect && redirectMethod.None?
    {
      this.data := data;
      this.responseCode := responseCode;
      this.headers := headers;
      isRedirect := false;
      redirectMethod := None;
    }

    /** `redirect`: marks the result as a redirect to `target`, merges the new data and
        headers over the current ones (`array_merge`), replaces the code only by a
        non-zero one, and returns the same object. */
    method Redirect(target: Callback, data: Array<Value>, responseCode: Option<int>, headers: Array<Value>)
      returns (self: Result)
      modifies this
      ensures Valid() && self == this
      ensures isRedirect && redirectMethod == Some(target)
      ensures this.data == Merge(old(this.data), data)
      ensures this.headers == Merge(old(this.headers), headers)
      ensures this.responseCode == KeptCode(old(this.responseCode), responseCode)
    {
      isRedirect := true;
      redirectMethod := Some(target);
      this.data := Merge(this.data, data);
      this.headers := Merge(this.headers, headers);
      if responseCode.Some? && responseCode.value != 0 {
        this.responseCode := responseCode;
      }
      self := this;
    }

    /** `getResponse` as written: reading the redirect target of a result that was never
        redirected is an error, because that property was never initialised. */
    function GetResponseAsWritten(): (r: Option<Response>)
      reads this
      ensures r.None? <==> redirectMethod.None?
      ensures r.Some? ==> r.value.isRedirect == isRedirect && r.value.redirectMethod == redirectMethod
    {
      if redirectMethod.None? then None
      else Some(Response(data, responseCode, headers, isRedirect, redirectMethod))
    }

    /** `getResponse` with the target starting out as `null`: every result yields a
        response carrying its data, code, headers and redirect. */
    function GetResponse(): (r: Response)
      reads this
      ensures r.data == data && r.responseCode == responseCode && r.headers == headers
      ensures Valid() ==> (r.isRedirect <==> r.redirectMethod.Some?)
      ensures redirectMethod.Some? ==> GetResponseAsWritten() == Some(r)
    {
      Response(data, responseCode, headers, isRedirect, redirectMethod)
    }
  }

  /** A result that was only constructed cannot produce a response as written, while the
      corrected `getResponse` gives one with no redirect. */
  method PlainResultHasNoResponse(data: Array<Value>, code: Option<int>, headers: Array<Value>)
    returns (asWritten: Option<Response>, corrected: Response)
    ensures asWritten.None?
    ensures corrected == Response(data, code, headers, false, None)
  {
    var r := new Result(data, code, headers);
    asWritten := r.GetResponseAsWritten();
    corrected := r.GetResponse();
  }
}
