# useFetch request lifecycle, in Dafny

This project models the `useFetch` React hook of a small front-end
application. The hook holds a piece of fetch state: `data`, `error` and
`isLoading`. It also keeps a ref to the active `AbortController` and a
`hasInitialized` ref. Its mount effect issues one request. `fetchData`
aborts the previous request's controller, installs a fresh one, sets
`isLoading` and clears `error`. The completion callbacks store the body or
an error only when the request's own controller has not been aborted.

Once React and the network are removed, the hook is a small sequential
controller:

- `UseFetch.FetchController<T>` is a class. Its fields are the hook's state
  cells and refs. Its methods are the constructor (first render), `Mount`
  (the effect), `Refetch`, `FetchData` and `Complete` (one request's promise
  chain running to its end).
- A request's controller is a token: the request's index in `sent`, the log
  of `fetch` calls. `aborted` is the set of tokens whose controller has had
  `abort()` called.
- The object invariant `Valid()` holds across any interleaving of these
  events. It says that only the newest token is not aborted. It says the
  hook is loading exactly while the newest request has not completed, and
  that there is no error while loading. After the newest request completes,
  `data`/`error` show how that request settled.
- `BuildInit` is the pure request configuration
  `{ method: "GET", ...options, signal }`, written over maps.
- `Resolve` is a pure function. It gives what the `.then/.then/.catch` chain
  settles to for each network outcome: an ok or non-ok response, a parse
  failure, a rejection with an `Error`, or a rejection with any other value.
  A body that is JSON `null` parses to `None`, the value `data` holds when
  there is no data, so storing it clears earlier data as `setData(null)` does.
  "Ok" means a status from 200 to 299, as section 2.2.3 ("Statuses") of the
  WHATWG Fetch Standard defines it. There a status is an integer from 0 to
  999.
- `Decimal` writes a status code into the message `Error: <status>`, and
  parses it back.
- `UseFetchScenarios` holds clients that drive the controller as a
  component and its environment do. Their contracts follow from the
  controller's contracts alone.

The model follows the code on these points:

- Nothing aborts on unmount.
- `refetch` only resets the flag.
- A failed request does not clear earlier `data`.

The test file's expectations at
`src/hooks/useFetch/__tests__/use-fetch.test.tsx:61` and `:71` also
disagree with the code, and the code is followed there too:

- A JSON body of the wrong shape is stored as data. The model never
  produces "Unexpected response type".
- A rejection with an `Error` keeps that `Error`. It is not replaced by
  "Unknown error".

## Model

| member | source | states |
|---|---|---|
| `UseFetch.FetchController.constructor` | src/hooks/useFetch/use-fetch.ts:9-14 | initial state: no data, no error, loading, no active controller, not initialised, nothing sent; the invariant holds |
| `UseFetch.FetchController.Refetch` | src/hooks/useFetch/use-fetch.ts:16-18 | clears `hasInitialized`; its frame is that one field, so nothing else changes; the invariant is kept |
| `UseFetch.FetchController.FetchData` | src/hooks/useFetch/use-fetch.ts:20-35 | the previously active controller (if any) is aborted; a fresh token becomes active; exactly one request `(url, BuildInit(options, token))` is sent; `isLoading` is true, `error` is absent, `data` is unchanged; the invariant (only the newest token is unaborted) is kept |
| `UseFetch.FetchController.Mount` | src/hooks/useFetch/use-fetch.ts:59-64 | when not initialised, sets the flag and starts exactly one request as `FetchData` does; when already initialised, changes nothing |
| `UseFetch.FetchController.Complete` | src/hooks/useFetch/use-fetch.ts:36-56 | an aborted (superseded) request leaves `data`, `error` and `isLoading` untouched; the live request is the newest one, ends loading and shows its settlement (the parsed body stored as `data`, a JSON `null` body as no data, with no error; or the error stored); a failure keeps earlier `data`; the invariant is kept |
| `UseFetch.BuildInit` | src/hooks/useFetch/use-fetch.ts:31-35 | keys are the options' keys plus `method` and `signal`; `method` is "GET" unless the options supply one; every other option passes through; `signal` is always the fresh controller's, whatever the options say |
| `UseFetch.BuildInitDiffersOnlyInSignal` | src/hooks/useFetch/use-fetch.ts:25-35 | two requests of one hook differ exactly in their signal |
| `UseFetch.Resolve` | src/hooks/useFetch/use-fetch.ts:36-51 | the chain delivers a body (possibly JSON `null`) if and only if the status is ok and the body parsed; a non-ok status gives `Error("Error: <status>")`, whose message names that status; a parse error or an `Error` rejection is kept unchanged; any other rejection gives `Error("Unknown error")` |
| `UseFetch.NewError` | src/hooks/useFetch/use-fetch.ts:38 | `new Error(message)` is a plain `Error` (name "Error") carrying exactly that message |
| `UseFetch.IsOkStatus` | src/hooks/useFetch/use-fetch.ts:37 | `response.ok`: the status is from 200 to 299, that is, of the 2xx class |
| `UseFetch.HttpStatusError` | src/hooks/useFetch/use-fetch.ts:38 | the error thrown for a non-ok status, a `new Error` with the text `Error: <status>`: a plain `Error` whose message reads back as that status |
| `UseFetch.UnknownError` | src/hooks/useFetch/use-fetch.ts:49 | the error stored for a non-`Error` rejection, `new Error("Unknown error")`: a plain `Error` with that message, naming no status |
| `UseFetch.HttpStatusErrorsDistinct` | src/hooks/useFetch/use-fetch.ts:38-49 | distinct statuses give distinct errors, and none of them equals the unknown-error value |
| `Decimal.FromNat` | src/hooks/useFetch/use-fetch.ts:38 | the numeral of a status in the template literal is all digits, with no leading zero |
| `Decimal.ValueOfFromNat` | src/hooks/useFetch/use-fetch.ts:38 | the numeral denotes the number it was written for |
| `Decimal.ParseFromNat` | src/hooks/useFetch/use-fetch.ts:38 | parsing a written numeral gives back the number |
| `UseFetchScenarios.RenderAndMount` | src/hooks/useFetch/__tests__/use-fetch.test.tsx:16-32 | after the first render and its effect, exactly one request has been sent, to the url, with method GET unless overridden and with controller 0's signal; `data` and `error` are absent and `isLoading` is true |
| `UseFetchScenarios.MountTwice` | src/hooks/useFetch/use-fetch.ts:59-64 | running the effect twice without a refetch sends a single request |
| `UseFetchScenarios.SingleRequest` | src/hooks/useFetch/use-fetch.ts:36-56 | for each outcome kind of one request: loading ends with the body (no error), the parse error, `Error("Error: <status>")`, the rejection's own `Error`, or `Error("Unknown error")` |
| `UseFetchScenarios.SupersededRequestIgnored` | src/hooks/useFetch/use-fetch.ts:20-56 | after refetch and a second activation, the first request's outcome changes nothing (still loading); the hook ends up showing only the second request's settlement |
| `UseFetchScenarios.FailureKeepsEarlierData` | src/hooks/useFetch/use-fetch.ts:42-56 | a later non-ok response sets the status error but leaves the earlier request's body in `data` |
| `UseFetchScenarios.NullBodyClearsData` | src/hooks/useFetch/use-fetch.ts:42-46 | a later ok response whose body is JSON `null` replaces the earlier body with no data, with no error and loading over |

## Left out

- React itself (`useState`, `useRef`, `useCallback`, render and effect scheduling) is library behaviour. State cells and refs are plain fields, and the effect is an explicit `Mount` call.
- The `fetch` call, the network and `response.json()` are I/O. A sent request is appended to `sent`. Its result reaches `Complete` as an `Outcome` value, with the Response's status and what `json()` yields.
- `AbortController` internals and the transport-level abort are not modelled. Only "has this token been aborted" is kept.
- The promise chain's three steps (`.then`, `.catch`, `.finally`) each check the same captured controller. `Complete` runs them as one atomic event. An abort that lands between two steps of one chain is not modelled.
- A promise settles once, so `Complete` requires that the token has not completed before.
- Abort on unmount is not modelled: the effect returns no cleanup, so the code never aborts when the component is discarded.
- A refetch does not re-run the effect, because the effect's dependency list is empty. `Refetch` only resets the flag. The scenarios call `Mount` again to stand for a new activation.
- The returned `abortController` field (src/hooks/useFetch/use-fetch.ts:71) is a render-time snapshot of the ref; it has no logic.
- Changes of `url` or `options` between renders are not modelled. The effect only ever uses the first render's `fetchData`, so a controller's url and options are constants.
- A caller's `method: undefined` is kept as `Undefined` in the configuration, as the spread does. What `fetch` then does with it is not modelled.
- `src/App.tsx`, `src/components/PokeCard.tsx` and `vite.config.ts` are view glue and build configuration, so they are not part of this model.
