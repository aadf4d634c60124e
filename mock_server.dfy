/** The mock API's response shaping (`router.render`): a record served under an
    `/errors` route with a truthy `statusCode` becomes an error reply with that
    status, without its `id`; everything else is passed through. */
module MockServer {
  import opened JsValues

  const ErrorsSegment := "/errors"

  /** A reply: the status set with `res.status(…)` (`None`: the default one) and
      the JSON body. */
  datatype Reply = Reply(status: Option<Value>, body: Value)

  /** The error condition of `router.render`: `/errors` somewhere in the URL and
      a truthy `statusCode` property. */
  predicate IsErrorRoute(url: string, data: Value) {
    IndexOf(url, ErrorsSegment) > -1 && data.Record? && Truthy(Lookup(data.fields, "statusCode"))
  }

  /** The reply `router.render` sends for `res.locals.data`; `None` when reading
      `statusCode` throws because there is no data (`undefined` or `null`). */
  function Decide(url: string, data: Value): (r: Option<Reply>)
    ensures r.None? <==> data.Undefined? || data.Null?
    ensures r.Some? ==> (r.value.status.Some? <==> IsErrorRoute(url, data))
    ensures r.Some? && IsErrorRoute(url, data) ==>
              && r.value.status == Some(Lookup(data.fields, "statusCode"))
              && r.value.body == Record([Field("error", Record(Delete(data.fields, "id")))])
    ensures r.Some? && !IsErrorRoute(url, data) ==> r.value.body == data
  {
    var statusCode := GetProperty(data, "statusCode");
    if statusCode.None? then None
    else if IndexOf(url, ErrorsSegment) > -1 && Truthy(statusCode.value) then
      Some(Reply(Some(statusCode.value), Record([Field("error", Record(Delete(data.fields, "id")))])))
    else Some(Reply(None, data))
  }

  /** The error body keeps every field of the record but `id`, with its value,
      and the status is the record's own `statusCode`. */
  lemma ErrorBodyFields(url: string, fields: seq<Field>, name: string)
    requires IsErrorRoute(url, Record(fields))
    ensures var r := Decide(url, Record(fields)).value;
            && r.body.Record? && Lookup(r.body.fields, "error").Record?
            && Lookup(Lookup(r.body.fields, "error").fields, "id") == Undefined
            && (name != "id" ==> Lookup(Lookup(r.body.fields, "error").fields, name) == Lookup(fields, name))
            && r.status == Some(Lookup(fields, "statusCode"))
  {
    LookupAfterDelete(fields, "id", if name == "id" then "statusCode" else name);
  }

  /** `/errors` counts wherever it occurs in the URL, not only as a prefix. */
  lemma ErrorsAnywhere(before: string, after: string)
    ensures IndexOf(before + ErrorsSegment + after, ErrorsSegment) > -1
  {
    var url := before + ErrorsSegment + after;
    assert url[|before|..|before| + |ErrorsSegment|] == ErrorsSegment;
    assert OccursAt(url, ErrorsSegment, |before|);
  }

  /** A URL without the segment passes every record through, whatever its
      `statusCode`. */
  lemma NoErrorsSegmentPassesThrough(url: string, data: Value)
    requires forall i :: 0 <= i <= |url| ==> !OccursAt(url, ErrorsSegment, i)
    requires !data.Undefined? && !data.Null?
    ensures Decide(url, data) == Some(Reply(None, data))
  {
  }

  /** The response object of one request: the data the router found, the status
      set on it and the body sent. */
  class Response {
    var data: Value
    var status: Option<Value>
    var sent: Option<Value>

    constructor(data: Value)
      ensures this.data == data && status.None? && sent.None?
    {
      this.data := data;
      status, sent := None, None;
    }

    /** `router.render(req, res)`: on an error route `id` is deleted from the data
        object itself and the data is sent wrapped in `error` with the record's
        status; otherwise the data is sent as it is. Without data the render
        throws before changing anything. */
    method Render(url: string) returns (threw: bool)
      modifies this
      ensures threw <==> Decide(url, old(data)).None?
      ensures threw ==> data == old(data) && status == old(status) && sent == old(sent)
      ensures !threw ==>
                var r := Decide(url, old(data)).value;
                && sent == Some(r.body)
                && status == (if IsErrorRoute(url, old(data)) then r.status else old(status))
                && data == (if IsErrorRoute(url, old(data)) then Record(Delete(old(data).fields, "id")) else old(data))
    {
      if data.Undefined? || data.Null? {
        return true;
      }
      threw := false;
      var statusCode := GetProperty(data, "statusCode").value;
      if IndexOf(url, ErrorsSegment) > -1 && Truthy(statusCode) {
        data := Record(Delete(data.fields, "id"));
        status := Some(statusCode);
        sent := Some(Record([Field("error", data)]));
      } else {
        sent := Some(data);
      }
    }
  }
}
