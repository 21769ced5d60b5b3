/**
  Clients of FetchController that drive it the way a component and its
  environment do: render and mount, then let requests finish in some order.
  What each one promises follows from the controller's contracts alone.
 */
module UseFetchScenarios {
  import opened Wrappers
  import opened UseFetch

  /**
    Rendering the hook runs the mount effect once: exactly one request is
    sent, to the given url, with method GET unless the options name one, and
    nothing has arrived yet.
   */
  method RenderAndMount<T>(url: string, options: RequestInit)
    returns (data: Option<T>, error: Option<JsError>, isLoading: bool, requests: seq<Request>)
    ensures data == None && error == None && isLoading
    ensures requests == [Request(url, BuildInit(options, 0))]
    ensures "method" !in options ==> requests[0].init["method"] == Text("GET")
    ensures requests[0].init["signal"] == Signal(0)
  {
    var c := new FetchController<T>(url, options);
    c.Mount();
    data, error, isLoading, requests := c.data, c.error, c.isLoading, c.sent;
  }

  /** The mount effect running again without a refetch in between sends nothing more. */
  method MountTwice<T>(url: string, options: RequestInit) returns (requests: seq<Request>)
    ensures requests == [Request(url, BuildInit(options, 0))]
  {
    var c := new FetchController<T>(url, options);
    c.Mount();
    c.Mount();
    requests := c.sent;
  }

  /**
    One request that finishes with `outcome`: loading ends, and the body or
    the error of its settlement is what the hook shows.
   */
  method SingleRequest<T>(url: string, options: RequestInit, outcome: Outcome<T>)
    returns (data: Option<T>, error: Option<JsError>, isLoading: bool)
    ensures !isLoading
    ensures outcome.Responded? && IsOkStatus(outcome.status) && outcome.body.Parsed? ==>
              data == outcome.body.value && error == None
    ensures outcome.Responded? && IsOkStatus(outcome.status) && outcome.body.Unparsable? ==>
              data == None && error == Some(outcome.body.parseError)
    ensures outcome.Responded? && !IsOkStatus(outcome.status) ==>
              data == None && error == Some(HttpStatusError(outcome.status))
    ensures outcome.RejectedWithError? ==> data == None && error == Some(outcome.reason)
    ensures outcome.RejectedWithOther? ==> data == None && error == Some(UnknownError())
  {
    var c := new FetchController<T>(url, options);
    c.Mount();
    c.Complete(0, outcome);
    data, error, isLoading := c.data, c.error, c.isLoading;
  }

  /**
    A refetch followed by a new activation sends a second request while the
    first is still in flight.  Whatever the first request's outcome, it
    changes nothing, and the hook ends up showing only the second one's.
   */
  method SupersededRequestIgnored<T>(url: string, options: RequestInit, first: Outcome<T>, second: Outcome<T>)
    returns (loadingAfterFirst: bool, data: Option<T>, error: Option<JsError>, isLoading: bool)
    ensures loadingAfterFirst
    ensures !isLoading
    ensures Resolve(second).Fulfilled? ==> data == Resolve(second).value && error == None
    ensures Resolve(second).Failed? ==> data == None && error == Some(Resolve(second).error)
  {
    var c := new FetchController<T>(url, options);
    c.Mount();
    c.Refetch();
    c.Mount();
    c.Complete(0, first);
    loadingAfterFirst := c.isLoading;
    c.Complete(1, second);
    data, error, isLoading := c.data, c.error, c.isLoading;
  }

  /** A failed later request reports its error but keeps the data of an earlier success. */
  method FailureKeepsEarlierData<T>(url: string, options: RequestInit, body: T, status: Status)
    returns (data: Option<T>, error: Option<JsError>, isLoading: bool)
    requires !IsOkStatus(status)
    ensures data == Some(body) && error == Some(HttpStatusError(status)) && !isLoading
  {
    var c := new FetchController<T>(url, options);
    c.Mount();
    c.Complete(0, Responded(200, Parsed(Some(body))));
    c.Refetch();
    c.Mount();
    c.Complete(1, Responded(status, Parsed(Some(body))));
    data, error, isLoading := c.data, c.error, c.isLoading;
  }

  /**
    A later ok response whose body is JSON `null` stores that null: the
    earlier body is gone and the hook shows no data and no error.
   */
  method NullBodyClearsData<T>(url: string, options: RequestInit, body: T)
    returns (dataAfterFirst: Option<T>, data: Option<T>, error: Option<JsError>, isLoading: bool)
    ensures dataAfterFirst == Some(body)
    ensures data == None && error == None && !isLoading
  {
    var c := new FetchController<T>(url, options);
    c.Mount();
    c.Complete(0, Responded(200, Parsed(Some(body))));
    dataAfterFirst := c.data;
    c.Refetch();
    c.Mount();
    c.Complete(1, Responded(200, Parsed(None)));
    data, error, isLoading := c.data, c.error, c.isLoading;
  }
}
