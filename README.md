# Session and request layer of the dashboard client, in Dafny

This project models the data-fetching layer of a browser dashboard: the shared HTTP client with
its two interceptors, the request hooks `useApi`, `useMutation`, `useFileUpload` and
`usePagination` (all in `src/hooks/useApi.js`), and the storage-backed state hooks
`useLocalStorage` and `useLocalStorageState` (`src/hooks/useLocalStorage.js`).

The network is replaced by an outcome value: `Success(body)` or `Failure(HttpError(status, body,
message))`. Every hook call takes the outcome it will receive as a parameter. The browser's
`localStorage` is a class holding a `map<string, string>`. The client records every request that
leaves it (`sent`, after the bearer-token interceptor) and every navigation (`redirects`). A
configured `onSuccess`/`onError` callback is recorded as a `Notice`. JSON is a small `Json`
datatype with JavaScript truthiness, so `customBody && …` and `a || b` are modelled as written.
The storage hooks are generic in their value type and go through an abstract `Codec`
(`JSON.stringify`/`JSON.parse`) whose decoding may fail; the round trip is the predicate
`RoundTrips`, taken as a precondition where it is needed. An HTTP method is a string and is
compared case-sensitively, as the auto-run gate compares it with `'GET'`: a hook configured with
`method: 'get'` does not auto-run.

Modules, one per file: `Wrappers` (Option, Result), `Json`, `Storage` (`localStorage`),
`Transport` (request configuration, interceptors, error text, `ApiClient`), `Requests`
(`useApi`, `useMutation`, `useFileUpload`), `Pagination` (`usePagination`) and `Persisted`
(`useLocalStorage`, `useLocalStorageState`). Each hook is a class whose fields are the hook's
state; its operations are methods with `modifies` clauses whose `ensures` give the whole new state.

Two properties one might expect of such a layer do not hold in this code, and the model does not state them:
- A failed `execute` keeps the previous `data`; there is no `status` field. So no "error implies no data" rule holds, and none is stated.
- Pagination's `currentPage <= totalPages` is not kept. `totalPages` is recomputed from each response, and a missing `total` makes it `NaN`.

## Model

| member | source | states |
|---|---|---|
| `Transport.Authorize` | src/hooks/useApi.js:17-24 | a truthy stored `authToken` sets `Authorization` to `"Bearer " + token`; with no token (or an empty one) the request is unchanged; no other part of the request ever changes |
| `Transport.ApiClient.Dispatch` | src/hooks/useApi.js:17-24 | every outgoing request goes through the interceptor against the current storage and is appended to the sent log |
| `Transport.ApiClient.Receive` | src/hooks/useApi.js:29-38 | a 401 failure removes exactly `authToken` and records one redirect to `/login`; any other outcome leaves storage and navigation alone; the outcome is passed on unchanged (still a failure) |
| `Transport.ApiClient.Send` | src/hooks/useApi.js:17-38 | one request through both interceptors: the request is logged with the credential held at send time, then the 401 policy applies, and the outcome is returned as received |
| `Transport.NoCredentialAfterUnauthorized` | src/hooks/useApi.js:19-21 | once the 401 path has removed the token, a request with no credential of its own goes out with no `Authorization` header |
| `Transport.ErrorMessage` | src/hooks/useApi.js:83 | the message is the response body's `error` field when it is truthy, otherwise the transport's message (the same rule is used at lines 140, 206 and 261) |
| `Transport.OverlayThen` | src/hooks/useApi.js:123-129 | spreading two option objects in turn equals spreading their merge, where later keys win; spreading no options changes nothing |
| `Requests.Notify` | src/hooks/useApi.js:77-79 | a settled call invokes at most one callback, and exactly one when the callback for its outcome (`onSuccess` for a success, `onError` for a failure) is configured; a success is never reported through `onError` nor a failure through `onSuccess`. The arguments passed are stated by the `notices` ensures of `ApiHook.Execute`, `MutationHook.Mutate` and `FileUploadHook.FinishUpload` |
| `Requests.AutoRuns` | src/hooks/useApi.js:51-97 | no contract of its own: the gate `immediate && method === 'GET'` (line 97) over the defaults of lines 51-54. Its meaning is stated by `Requests.AutoRunOnlyForImmediateGet` and by `ApiHook.Mount`'s `ran == AutoRuns(options)` |
| `Requests.AutoRunOnlyForImmediateGet` | src/hooks/useApi.js:96-100 | default options auto-run; a method other than `"GET"` (the lower-case `"get"` included) or `immediate: false` never does |
| `Requests.QueryConfig` | src/hooks/useApi.js:65-70 | the request uses the configured method, which the rest options cannot override; when the rest options carry no `data` of their own, the body is attached exactly when it is truthy (a `data` in the rest options replaces it); an omitted argument means the configured `body` |
| `Requests.ApiHook.constructor` | src/hooks/useApi.js:47-49 | a new hook starts with `data` and `error` null and `loading` false |
| `Requests.ApiHook.Execute` | src/hooks/useApi.js:60-94 | the request goes out through the client. On success `data` is the result and `error` is null. On failure `error` is the message and `data` is unchanged. `loading` ends false, the configured callback runs once, and the result is returned or the failure rethrown (`refetch` is the same function, line 107) |
| `Requests.ApiHook.Mount` | src/hooks/useApi.js:96-100 | `execute()` runs on mount exactly when the gate is open; otherwise nothing changes at all and no request is sent |
| `Requests.MutationConfig` | src/hooks/useApi.js:123-129 | with no options the request is a POST of the payload as JSON to `url`; a `url` in `customOptions` wins, and with a `url` in neither options object the hook's `url` is used |
| `Requests.MutationPrecedence` | src/hooks/useApi.js:123-129 | method and data default to POST and the payload; `options` overrides them, and `customOptions` overrides both |
| `Requests.MutationHook.constructor` | src/hooks/useApi.js:114-116 | a mutation hook sends nothing when created: there is no auto-run |
| `Requests.MutationHook.Mutate` | src/hooks/useApi.js:118-151 | the request goes out through the client. `error` is null after a success and the message after a failure. `loading` ends false, the configured callback runs once, and the result is returned or the failure rethrown |
| `Requests.BuildFormData` | src/hooks/useApi.js:174-179 | the multipart body holds the file first, then exactly one text field per extra entry, in order |
| `Requests.Percent` | src/hooks/useApi.js:189-191 | the progress is the integer nearest to `loaded*100/total`, with halves rounded up |
| `Requests.PercentUnique` | src/hooks/useApi.js:189-191 | no other integer satisfies that rounding bound, so `Percent` is `Math.round` of the quotient |
| `Requests.PercentInRange` | src/hooks/useApi.js:188-193 | with `0 <= loaded <= total`, the progress lies in 0..100; it is 0 for nothing sent and 100 for everything sent |
| `Requests.FileUploadHook.constructor` | src/hooks/useApi.js:164-166 | a new upload hook has `progress` 0, `loading` false, `error` null and has run no callback |
| `Requests.UploadConfig` | src/hooks/useApi.js:181-195 | with no options the upload is a POST of the multipart form to `url` with the multipart `Content-Type`; a `headers` option replaces the whole header object; without a `data` option the form is sent |
| `Requests.FileUploadHook.StartUpload` | src/hooks/useApi.js:168-197 | an upload starts with `loading` on, `error` cleared and `progress` at 0, then sends the built form through the client |
| `Requests.FileUploadHook.OnUploadProgress` | src/hooks/useApi.js:188-193 | each progress event sets `progress` to the rounded percentage, which is within 0..100 when `loaded` is within the total |
| `Requests.FileUploadHook.FinishUpload` | src/hooks/useApi.js:197-217 | the settled upload applies the 401 policy, records the message on failure, runs the configured callback once, and returns `progress` to 0 and `loading` to false whether it succeeded or failed |
| `Pagination.CeilDiv` | src/hooks/useApi.js:256 | the result `r` satisfies `(r-1)*pageSize < total <= r*pageSize` |
| `Pagination.CeilDivUnique` | src/hooks/useApi.js:256 | only one integer satisfies that bound, so `CeilDiv` is `Math.ceil(total / pageSize)` |
| `Pagination.TotalPages` | src/hooks/useApi.js:256 | a truthy server `pages` wins; otherwise the count is the ceiling of `total / pageSize`; a missing `total` gives `NaN` |
| `Pagination.FortyFiveItemsMakeThreePages` | src/hooks/useApi.js:238-256 | 45 items at the default page size 20 make 3 pages; 40 make 2; 0 make 0 |
| `Pagination.PageItems` | src/hooks/useApi.js:255 | the items are `result.data` when it is truthy; otherwise `result.items` when that is truthy; otherwise `[]`. They are never falsy |
| `Pagination.PageParamsAsWritten` | src/hooks/useApi.js:245-252 | no contract of its own: the query as the code builds it. What it means is stated by `Pagination.CallerParamsDropPage` and `Pagination.PageParamsAgreeWithoutExtra` |
| `Pagination.CallerParamsDropPage` | src/hooks/useApi.js:245-252 | as written, any caller `params` that do not name `page` replace the built query: no `page` is sent, nor `per_page` unless the caller names it, and the query differs from the one the hook builds |
| `Pagination.QueryParamDropsPage` | src/hooks/useApi.js:245-252 | for `params: {q: 'x'}` on page 2, the query as written is `{q: 'x'}` alone, where the intended one is `{page: 2, per_page: 20, q: 'x'}` |
| `Pagination.PageParams` | src/hooks/useApi.js:246-250 | the query carries `page` and `per_page` plus every caller parameter; the caller's keys keep their values |
| `Pagination.PageRequest` | src/hooks/useApi.js:245-252 | the corrected query (see Findings): every page fetch is a GET of `url` without body or headers of its own; its query always carries `page` and `per_page` along with every caller parameter, and without caller `params` it is exactly `{page, per_page}` |
| `Pagination.PageParamsAgreeWithoutExtra` | src/hooks/useApi.js:245-252 | without caller `params` the request as written and the corrected one are the same `{page, per_page}` |
| `Pagination.FetchResult` | src/hooks/useApi.js:254-263 | no contract of its own: a `null` body becomes the `TypeError` from reading `.data`, and every other outcome passes through. Its meaning is stated by `PaginationHook.FetchPage`'s `Fetched` (a usable body sets the page state; a failure changes only `error` and `loading`) and by `Pagination.NullBodyKeepsPage` |
| `Pagination.NullBodyKeepsPage` | src/hooks/useApi.js:254-263 | a fetch answered with a `null` body keeps `data`, `totalPages` and `currentPage`, and sets `error` to the `TypeError` text with `loading` off |
| `Pagination.PaginationHook.constructor` | src/hooks/useApi.js:232-238 | a new hook has no items, 0 pages, page 1 and page size 20 unless one is given |
| `Pagination.PaginationHook.FetchPage` | src/hooks/useApi.js:240-267 | a usable response replaces `data`, `totalPages` and `currentPage` and clears `error`. A failure changes only `error` and `loading` |
| `Pagination.PaginationHook.Mount` | src/hooks/useApi.js:269-271 | mounting fetches page 1 |
| `Pagination.PaginationHook.NextPage` | src/hooks/useApi.js:273-277 | fetches `currentPage + 1` exactly when `hasNext` (`currentPage < totalPages`). Otherwise no request is sent and no state changes |
| `Pagination.PaginationHook.PrevPage` | src/hooks/useApi.js:279-283 | fetches `currentPage - 1` exactly when `hasPrev` (`currentPage > 1`, line 298), so never from page 1. Otherwise no request is sent and no state changes |
| `Pagination.PaginationHook.GoToPage` | src/hooks/useApi.js:285-289 | fetches `page` exactly when `1 <= page <= totalPages`. Otherwise no request is sent and no state changes |
| `Pagination.PaginationHook.Refetch` | src/hooks/useApi.js:302 | fetches the current page again |
| `Pagination.PaginationHook.HasNext` | src/hooks/useApi.js:297 | no contract of its own: `currentPage < totalPages`, false for a `NaN` count. Its meaning is stated by `NextPage`'s `issued == old(HasNext())` and by `Pagination.HasNextAfterFetch` |
| `Pagination.PaginationHook.HasPrev` | src/hooks/useApi.js:298 | no contract of its own: `currentPage > 1`. Its meaning is stated by `PrevPage`'s `issued == old(HasPrev())` |
| `Pagination.NextExistsIffItemsRemain` | src/hooks/useApi.js:256-297 | with the count taken from `total`, a page after `page` exists exactly when `page * pageSize < total` |
| `Pagination.HasNextAfterFetch` | src/hooks/useApi.js:254-297 | after a successful fetch of `page` whose body gives only `total`, the hook is on `page` and `hasNext` holds exactly when items remain beyond it; on the last page it is false |
| `Persisted.ReadStored` | src/hooks/useLocalStorage.js:11-23 | the initial value is the parsed item when the key holds a non-empty string that parses. It is `initialValue` when there is no window, the key is missing or empty, or parsing fails |
| `Persisted.ReadBackAfterWrite` | src/hooks/useLocalStorage.js:18 | for a value whose encoding round-trips, reading back what `setValue` wrote yields that value |
| `Persisted.WriteIsolated` | src/hooks/useLocalStorage.js:34 | a write under one key leaves the read of every other key unchanged |
| `Persisted.Resolve` | src/hooks/useLocalStorage.js:29 | no contract of its own: a plain value, or an updater applied to the current value. Its meaning is stated by `LocalStorageHook.SetValue`'s ensures on the new value |
| `Persisted.LocalStorageHook.constructor` | src/hooks/useLocalStorage.js:11-23 | the first render holds the initial read of the key |
| `Persisted.LocalStorageHook.SetValue` | src/hooks/useLocalStorage.js:26-39 | the value becomes `v`, or `f(current)` for an updater (line 29). The encoded value is written under the hook's key only. A refused write is swallowed, and the in-memory value stays updated |
| `Persisted.InitialState` | src/hooks/useLocalStorage.js:49-64 | the initial state has exactly the keys of `initialValues`, each read on its own with its own fallback |
| `Persisted.ReadInitialState` | src/hooks/useLocalStorage.js:54-63 | the key-by-key loop fills exactly that initial state |
| `Persisted.UnreadableKeyFallsBackAlone` | src/hooks/useLocalStorage.js:56-61 | an unparsable item makes only its own key fall back; every other key reads as before |
| `Persisted.WithKey` | src/hooks/useLocalStorage.js:68 | `{...prev, [key]: value}` has the previous keys plus `key`; `key` holds `value`; every other key is unchanged |
| `Persisted.LocalStorageStateHook.constructor` | src/hooks/useLocalStorage.js:49-64 | the first render holds the initial state |
| `Persisted.LocalStorageStateHook.UpdateValue` | src/hooks/useLocalStorage.js:66-78 | the state gains `key = value` with all else unchanged. Storage is written under `key` only, and a refused write is swallowed |

## Findings

| source | as written | input that shows it | evidently intended | confidence | as-written member | corrected member |
|---|---|---|---|---|---|---|
| src/hooks/useApi.js:245-252 | `{params: {page, per_page: pageSize, ...axiosOptions.params}, ...axiosOptions}`: the trailing spread replaces the whole built `params` whenever the caller passed `params` | `usePagination(url, {params: {q: 'x'}})` then `fetchPage(2)` sends `{q: 'x'}` with no `page` and no `per_page` | send `{page, per_page, ...params}` | not executed; high | `Pagination.CallerParamsDropPage` | `Pagination.PageParams` |

`Pagination.PageParamsAsWritten` is the query built as written. `Pagination.PageRequest`, and so every page fetch of the model, uses the corrected `Pagination.PageParams`.

## Left out

- Transport configuration (`useApi.js:5-14`): base URL, environment lookup, the 10 s timeout and the default `Content-Type` header. These belong to axios defaults.
- The HTTP call: axios and the network are an outcome parameter. Timeouts and network errors are failures without a status.
- Navigation: the `window.location.href` assignment is recorded in `redirects`. The page does not unload.
- React mechanics: `useCallback`/`useEffect` re-runs, stale closures and object identity. Every operation reads the hook's current fields.
- `updateValue` writes inside a `setState` updater (which React may call twice); the model writes once.
- Overlapping requests: each `execute`, `mutate` and `fetchPage` is one sequential step, so the last-resolved-wins race is not modelled. Uploads are split into start, progress and finish steps, because progress events arrive mid-transfer.
- Callbacks that throw: `onSuccess` and `onError` are recorded as notices, and their own failures are not modelled.
- An `onUploadProgress` key in the upload options would replace the hook's progress handler. It is not modelled.
- Requests.Percent: integer round-half-up stands in for `Math.round` over floating-point division.
- Requests.FileUploadHook.OnUploadProgress: requires a positive `total`. An event whose total is unknown or 0 makes the source store `NaN` or `Infinity`, and that case is not modelled.
- Pagination.TotalPages: numbers are integers, and only a page count can be `NaN`. `ToNumber` takes every string, array and object to `NaN`. JavaScript's `Number` takes `""` and `[]` to 0 and a numeric string or one-element array to its number. So a `total` of `""` or `[]` gives 0 pages in the source, and `"45"` or `[45]` gives 3 pages at size 20, where the model gives `NaN`. A truthy string `pages` such as `"3"` is kept by the source and compared by coercion. The model takes it as `NaN`. Fractional totals are not modelled.
- Pagination.FetchResult: the message of the `TypeError` for a `null` body is the V8 engine's wording. Other engines word it differently.
- Pagination.PaginationHook.constructor: requires a positive `pageSize`. With 0, JavaScript divides by zero, which is not modelled. Request options of `usePagination` other than `pageSize` and `params` are not modelled.
- Pagination.PaginationHook.FetchPage: requires `page >= 1`. `fetchPage` is not exported, and every caller in the hook passes a page of at least 1.
- Pagination.PaginationHook.FetchPage: its request carries the corrected `PageParams`. When the caller passes `params`, the source sends those alone, without `page` and `per_page` (see Findings), so the model's request differs from the source's in that case.
- The request interceptor changes `config.headers` in place. The model returns the new configuration as a value, so aliasing of the configuration object is not modelled.
- `localStorage.getItem` throwing (storage disabled) is not modelled. In the storage hooks (`useLocalStorage.js:16-22, 56-61`) it would fall back as a parse failure does. In the request interceptor (`useApi.js:19`) the call is not guarded, so the request would reject and the caller's `catch` would run.
- `JSON.stringify` and `JSON.parse` internals: the `Codec` is abstract. A throwing `stringify` in a setter is covered by the `rejected` write parameter, since both are swallowed after the value is updated. An updater function that throws is not modelled.
- `Object.keys` enumeration order: the extra upload fields are given as a sequence in the order they are enumerated.
- Storage has no token setter in this code. The token is only read by the interceptor and removed on 401, so no login path is modelled.
- `src/App.jsx` and `src/components/CodeSandbox.jsx` are not part of this model. They are views, whose empty-input guards sit in UI handlers.
