/**
  The request-lifecycle controller of the `useFetch` hook.

  React's state cells and refs become the fields of FetchController; the
  mount effect, `refetch`, `fetchData` and the completion callbacks of the
  request chain become its methods.  The network is left outside: each call
  of `fetch` is recorded in `sent`, and the environment later reports how
  request k finished by calling Complete(k, outcome), one atomic event on a
  single-threaded event loop.  A request's AbortController is its token k,
  the index of the request in `sent`; `aborted` holds the tokens whose
  controller has had `abort()` called on it.
 */
module UseFetch {
  import opened Wrappers
  import Decimal

  // ---------------------------------------------------------------------
  // Errors

  /** A JavaScript `Error` object: its `name` ("Error", "TypeError", "AbortError", ...) and its `message` */
  datatype JsError = JsError(name: string, message: string)

  /** `new Error(message)`: a plain Error carrying exactly that message */
  function NewError(message: string): (e: JsError)
    ensures e.name == "Error" && e.message == message
  {
    JsError("Error", message)
  }

  /**
    A response status: an integer from 0 to 999 (section 2.2.3, "Statuses",
    of the WHATWG Fetch Standard).
   */
  type Status = s: nat | s <= 999

  /**
    An ok status is one in the range 200 to 299 (same section); `response.ok`
    tests exactly this.  These are the statuses of the 2xx class.
   */
  predicate IsOkStatus(status: Status): (ok: bool)
    ensures ok <==> status / 100 == 2
  {
    200 <= status <= 299
  }

  /** The status code an error message names, if it has the form "Error: <digits>". */
  function StatusInMessage(message: string): (r: Option<nat>)
    ensures r.Some? ==> |message| > 7 && message[..7] == "Error: "
  {
    if |message| >= 7 && message[..7] == "Error: " then Decimal.Parse(message[7..]) else None
  }

  /**
    The Error thrown for a response whose status is not ok,
    `new Error(`Error: ${status}`)`: a plain Error whose message names the status.
   */
  function HttpStatusError(status: Status): (e: JsError)
    ensures e.name == "Error"
    ensures StatusInMessage(e.message) == Some(status as nat)
  {
    var e := NewError("Error: " + Decimal.FromNat(status));
    assert e.message[7..] == Decimal.FromNat(status);
    Decimal.ParseFromNat(status);
    e
  }

  /** The Error stored for a rejection whose reason is not an Error: it names no status. */
  function UnknownError(): (e: JsError)
    ensures e.name == "Error" && e.message == "Unknown error"
    ensures StatusInMessage(e.message) == None
  {
    NewError("Unknown error")
  }

  /** Distinct bad statuses give distinct errors, and none of them is the unknown-error value. */
  lemma HttpStatusErrorsDistinct(s1: Status, s2: Status)
    ensures HttpStatusError(s1) == HttpStatusError(s2) <==> s1 == s2
    ensures HttpStatusError(s1) != UnknownError()
  {
    // the messages read back as s1 and s2 (HttpStatusError's contract), and as UnknownError's reads as no status
  }

  // ---------------------------------------------------------------------
  // The request configuration

  /** An AbortController, identified by the index of the request it was made for */
  type Token = nat

  /** A property value of a RequestInit object */
  datatype InitValue =
    | Text(text: string)      // a string, such as a method name or a JSON body
    | Signal(token: Token)    // the AbortSignal of controller `token`
    | Undefined               // a property present with the value `undefined`
    | Other(name: string)     // any other value (a Headers object, a stream, ...), by a name for it

  /** A RequestInit object, as its own enumerable properties */
  type RequestInit = map<string, InitValue>

  /** One call `fetch(url, init)` */
  datatype Request = Request(url: string, init: RequestInit)

  /**
    The configuration `{ method: "GET", ...options, signal: controller.signal }`:
    later properties of a spread override earlier ones.
   */
  function BuildInit(options: RequestInit, token: Token): (init: RequestInit)
    ensures init.Keys == options.Keys + {"method", "signal"}
    ensures init["signal"] == Signal(token)
    ensures "method" !in options ==> init["method"] == Text("GET")
    ensures forall key :: key in options && key != "signal" ==> init[key] == options[key]
  {
    map["method" := Text("GET")] + options + map["signal" := Signal(token)]
  }

  /** Two requests built from the same options differ only in their signal. */
  lemma BuildInitDiffersOnlyInSignal(options: RequestInit, t1: Token, t2: Token)
    ensures BuildInit(options, t1) - {"signal"} == BuildInit(options, t2) - {"signal"}
    ensures BuildInit(options, t1) == BuildInit(options, t2) <==> t1 == t2
  {
  }

  // ---------------------------------------------------------------------
  // How a request finishes

  /**
    What `response.json()` yields: the parsed body, or the Error it rejects
    with.  A body that is JSON `null` parses to None, the same value the
    hook's `data` holds when there is no data.
   */
  datatype Body<T> = Parsed(value: Option<T>) | Unparsable(parseError: JsError)

  /** How the network side of request k ends */
  datatype Outcome<T> =
    | Responded(status: Status, body: Body<T>)   // `fetch` resolved with a Response
    | RejectedWithError(reason: JsError)          // `fetch` rejected with an Error (network failure, abort)
    | RejectedWithOther                           // `fetch` rejected with a value that is not an Error

  /** Where the chain `.then(check status, json).then(setData).catch(setError)` ends up */
  datatype Settlement<T> = Fulfilled(value: Option<T>) | Failed(error: JsError)

  /**
    The settlement of the promise chain for an outcome: a body is delivered
    only for an ok status whose body parsed; any other path delivers an
    Error, which is the rejection reason itself when that is an Error.
   */
  function Resolve<T>(outcome: Outcome<T>): (r: Settlement<T>)
    ensures r.Fulfilled? <==> outcome.Responded? && IsOkStatus(outcome.status) && outcome.body.Parsed?
    ensures r.Fulfilled? ==> r.value == outcome.body.value
    ensures outcome.Responded? && !IsOkStatus(outcome.status) ==>
              r.error == HttpStatusError(outcome.status) &&
              StatusInMessage(r.error.message) == Some(outcome.status as nat)
    ensures outcome.Responded? && IsOkStatus(outcome.status) && outcome.body.Unparsable? ==>
              r.error == outcome.body.parseError
    ensures outcome.RejectedWithError? ==> r.error == outcome.reason
    ensures outcome.RejectedWithOther? ==> r.error == UnknownError()
  {
    match outcome
    case Responded(status, body) =>
      if !IsOkStatus(status) then
        Failed(HttpStatusError(status))
      else
        (match body
         case Parsed(v) => Fulfilled(v)
         case Unparsable(e) => Failed(e))
    case RejectedWithError(e) => Failed(e)
    case RejectedWithOther => Failed(UnknownError())
  }

  // ---------------------------------------------------------------------
  // The controller

  class FetchController<T> {
    const url: string
    const options: RequestInit

    var data: Option<T>              // useState<T | null>
    var error: Option<JsError>       // useState<Error | null>
    var isLoading: bool              // useState<boolean>
    var activeToken: Option<Token>   // abortControllerRef.current
    var hasInitialized: bool         // hasInitialized.current

    var aborted: set<Token>          // controllers whose abort() has been called
    var sent: seq<Request>           // every fetch call so far; request k carries token k

    /** How each completed request settled (a promise settles once) */
    ghost var settled: map<Token, Settlement<T>>

    /** The visible state shows the settlement r */
    ghost predicate Shows(r: Settlement<T>)
      reads this
    {
      match r
      case Fulfilled(v) => data == v && error == None
      case Failed(e) => error == Some(e)
    }

    /**
      The object invariant: every request was built from the hook's url and
      options with its own signal; the active controller is the newest one
      and it alone is not aborted; the hook is loading exactly while no
      request has been sent or the newest one has not completed; while
      loading there is no error; and once the newest request has completed,
      the visible state shows how it settled.
     */
    ghost predicate Valid()
      reads this
    {
      (forall k :: 0 <= k < |sent| ==> sent[k] == Request(url, BuildInit(options, k))) &&
      (if |sent| == 0 then activeToken == None else activeToken == Some(|sent| - 1)) &&
      (forall k: Token :: k in aborted <==> k + 1 < |sent|) &&
      (forall k :: k in settled ==> k < |sent|) &&
      (isLoading <==> |sent| == 0 || |sent| - 1 !in settled) &&
      (isLoading ==> error == None) &&
      (!isLoading ==> Shows(settled[|sent| - 1]))
    }

    /** The first render: nothing fetched, no error, loading, no controller, not initialised. */
    constructor(url: string, options: RequestInit)
      ensures Valid()
      ensures this.url == url && this.options == options
      ensures data == None && error == None && isLoading
      ensures activeToken == None && !hasInitialized
      ensures sent == [] && aborted == {}
    {
      this.url := url;
      this.options := options;
      data, error, isLoading := None, None, true;
      activeToken, hasInitialized := None, false;
      aborted, sent := {}, [];
      settled := map[];
    }

    /**
      The effect of one `fetchData` call: the previous controller is
      aborted, a fresh one is active, one request with its signal is sent,
      loading is on and the error cleared; data is kept.
     */
    twostate predicate Started()
      reads this
    {
      sent == old(sent) + [Request(url, BuildInit(options, |old(sent)|))] &&
      activeToken == Some(|old(sent)|) &&
      aborted == old(aborted) + (if old(activeToken).Some? then {old(activeToken).value} else {}) &&
      isLoading && error == None && data == old(data) && settled == old(settled)
    }

    /** `refetch`: resets the initialisation marker and nothing else. */
    method Refetch()
      requires Valid()
      modifies this`hasInitialized
      ensures Valid() && !hasInitialized
    {
      hasInitialized := false;
    }

    /** `fetchData` */
    method FetchData()
      requires Valid()
      modifies this
      ensures Valid() && Started()
      ensures hasInitialized == old(hasInitialized)
    {
      if activeToken.Some? {
        aborted := aborted + {activeToken.value};
      }
      var token := |sent|;
      activeToken := Some(token);
      isLoading := true;
      error := None;
      sent := sent + [Request(url, BuildInit(options, token))];
    }

    /** The mount effect: issues one request unless the hook is already initialised. */
    method Mount()
      requires Valid()
      modifies this
      ensures Valid() && hasInitialized
      ensures old(hasInitialized) ==> unchanged(this)
      ensures !old(hasInitialized) ==> Started()
    {
      if !hasInitialized {
        hasInitialized := true;
        FetchData();
      }
    }

    /**
      Request `token` finishes with `outcome`.  Each step of the chain
      first checks that the request's own controller is not aborted; if it
      is, nothing visible changes.  Otherwise the body or the error is
      stored and loading ends.
     */
    method Complete(token: Token, outcome: Outcome<T>)
      requires Valid()
      requires token < |sent| && token !in settled
      modifies this`data, this`error, this`isLoading, this`settled
      ensures Valid()
      ensures settled == old(settled)[token := Resolve(outcome)]
      ensures token in aborted ==>
                data == old(data) && error == old(error) && isLoading == old(isLoading)
      ensures token !in aborted ==> token == |sent| - 1 && !isLoading && Shows(Resolve(outcome))
      ensures token !in aborted && Resolve(outcome).Failed? ==> data == old(data)
    {
      var r := Resolve(outcome);
      if token !in aborted {
        match r {
          case Fulfilled(v) => data := v;
          case Failed(e) => error := Some(e);
        }
        isLoading := false;
      }
      settled := settled[token := r];
    }
  }
}
