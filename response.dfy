/** The earlier response object of Response.php: data, status code and headers that a
    redirect merges more data and headers into. */
module EarlyResponse {
  import opened Php
  import Results

  class Response {
    var data: Array<Value>
    var responseCode: Option<int>
    var headers: Array<Value>
    var isRedirect: bool
    /** An untyped property: `null`, here `None`, until `redirect` sets it. */
    var redirectMethod: Option<Callback>

    /** A new response is not a redirect. */
    constructor(data: Array<Value>, responseCode: Option<int>, headers: Array<Value>)
      ensures this.data == data && this.responseCode == responseCode && this.headers == headers
      ensures !isRedirect && redirectMethod.None?
    {
      this.data := data;
      this.responseCode := responseCode;
      this.headers := headers;
      isRedirect := false;
      redirectMethod := None;
    }

    /** `redirect`: marks the response as a redirect to `target`, merges the new data and
        headers over the current ones (`array_merge`) and replaces the code only by a
        non-zero one. */
    method Redirect(target: Callback, data: Array<Value>, responseCode: Option<int>, headers: Array<Value>)
      modifies this
      ensures isRedirect && redirectMethod == Some(target)
      ensures this.data == Merge(old(this.data), data)
      ensures this.headers == Merge(old(this.headers), headers)
      ensures this.responseCode == Results.KeptCode(old(this.responseCode), responseCode)
    {
      isRedirect := true;
      redirectMethod := Some(target);
      this.data := Merge(this.data, data);
      this.headers := Merge(this.headers, headers);
      if responseCode.Some? && responseCode.value != 0 {
        this.responseCode := responseCode;
      }
    }
  }
}
