# WebWorker bootstrap adapter for the Dojo loader — a Dafny model

This project models `webworkerDojoConfig` (`_base/configWebWorker.js`). The Dojo loader calls this function once at start-up when it runs inside a WebWorker. It receives the loader's `config` object, the worker's global object and the loader's `has` feature probe. It then does four things, in this order:

1. It overwrites six flags of the capability table `config.hasCache`. The four browser-only flags (`host-browser`, `dom`, `dojo-dom-ready-api`, `dojo-sniff`) become 0. The two worker flags (`dojo-inject-api`, `host-webworker`) become 1. No other flag is touched.
2. It binds the global object to itself as `window`.
3. It probes `has("config-cacheBust")` once and picks one of two `fixupUrl` transforms. The cache-busting transform appends the clock reading as a query parameter, after `&` if the URL already has a `?` and after `?` otherwise. The other transform is the identity.
4. It installs `config.loaderPatch`, which holds two primitives:
   - `injectUrl` runs `importScripts(url)`. On success it calls the callback; on failure it logs the error and swallows it.
   - `getText` issues a blocking GET for `fixupUrl(url)`. It calls `onLoad(responseText, async)` only when the status is 200, or when the status is 0 and the page has no host. Whenever it returns, it returns the response text, whether or not the status was accepted.

All of it is in `config_web_worker.dfy`, module `ConfigWebWorker`:

- `Config` and `GlobalContext` are classes, because the source changes them in place. `Config.hasCache` is a `map<string, int>`. The other top-level entries of `config` are `Config.settings`.
- Both `for (p in …)` loops are methods with loop invariants. They are proved against one specification function, `Overlay`, which writes a table of (key, value) pairs into a map in order. `Overlay` is then shown to be a right-biased map union, and the frame and idempotence facts follow from that. A separate induction shows that the last write to a key wins.
- `FixupUrl` is a function of the strategy (`CacheBust | Identity`, picked by `SelectStrategy`), the URL and a token. The token stands for the text of `new Date()`.
- `InjectUrl` and `GetText` are methods. The host primitives they call are parameters:
  - what `importScripts` does with a URL;
  - what the XHR answers for a URL;
  - whether the loader's callback returns or throws;
  - the worker's `location.host`.
  
  Each method returns the trace of its effects on the host (imports, requests, callback calls, console diagnostics) and how the call ended (`Returned` or `Raised(cause)`). `GetText` also returns the text that `getText` returns.
- The success test of `getText` is the predicate `TextAccepted`.

Exceptions, as the code handles them:

- `getText` catches nothing. An exception thrown by `xhr.send` (line 48) or by `onLoad` (line 51) leaves `getText`. `GetText` models this as a `Raised` ending.
- In `injectUrl` the `try` (lines 37-43) covers `callback()` as well as `importScripts`. A callback that throws is therefore caught too, and logged as a failure to load the resource. `InjectUrl` models this.

## Model

| member | source | states |
|---|---|---|
| `ConfigWebWorker.Overlay` | _base/configWebWorker.js:16-18 | after writing a table of (key, value) pairs into a map, the keys are the old keys plus the listed keys |
| `ConfigWebWorker.OverlayIsUnion` | _base/configWebWorker.js:16-18 | writing the pairs one by one gives the same map as a right-biased union with the map the table describes |
| `ConfigWebWorker.OverlayOutside` | _base/configWebWorker.js:60-62 | a key the table does not list keeps its presence and its value |
| `ConfigWebWorker.OverlayLastWriteWins` | _base/configWebWorker.js:16-18 | a listed key ends up holding the value of the last pair that writes it, whatever the map held before |
| `ConfigWebWorker.OverlayIdempotent` | _base/configWebWorker.js:16-18 | writing the same table twice gives the same map as writing it once |
| `ConfigWebWorker.WorkerCapKeys` | _base/configWebWorker.js:7-14 | the worker table lists exactly the six keys host-browser, dom, dojo-dom-ready-api, dojo-sniff, dojo-inject-api and host-webworker |
| `ConfigWebWorker.WorkerCapTableDistinct` | _base/configWebWorker.js:7-14 | the worker table lists no key twice |
| `ConfigWebWorker.PatchedCapsValues` | _base/configWebWorker.js:7-18 | after the patch, host-browser, dom, dojo-dom-ready-api and dojo-sniff read 0 and dojo-inject-api and host-webworker read 1, whatever they held before; the keys are the old keys plus these six |
| `ConfigWebWorker.PatchedCapsFrame` | _base/configWebWorker.js:16-18 | every key outside the six keeps its presence and its value |
| `ConfigWebWorker.PatchedCapsIdempotent` | _base/configWebWorker.js:16-18 | applying the patch twice gives the same table as applying it once |
| `ConfigWebWorker.PatchedCaps` | _base/configWebWorker.js:7-18 | the patched table has the old keys plus the six keys of the worker table |
| `ConfigWebWorker.Config.PatchHasCache` | _base/configWebWorker.js:16-18 | the in-place loop leaves `hasCache` equal to the patched table and leaves the other config entries unchanged |
| `ConfigWebWorker.SelectStrategy` | _base/configWebWorker.js:22 | cache-busting is chosen exactly when `has("config-cacheBust")` holds |
| `ConfigWebWorker.FixupUrl` | _base/configWebWorker.js:22-31 | identity when cache-busting is off; when it is on, the output is the URL, then one separator (`&` if the URL contains `?`, else `?`), then the token; so its length is \|url\| + 1 + \|token\| and it always contains `?` |
| `ConfigWebWorker.CacheBustSeparator` | _base/configWebWorker.js:23-26 | with cache-busting on, the output is `url + "?" + token` for a URL without `?` and `url + "&" + token` for one with `?` |
| `ConfigWebWorker.CacheBustTokensDiffer` | _base/configWebWorker.js:25 | two different clock readings give two different URLs for the same resource |
| `ConfigWebWorker.CacheBustUrlsDiffer` | _base/configWebWorker.js:25 | for one clock reading, two different URLs stay different after cache-busting |
| `ConfigWebWorker.CacheBustTwice` | _base/configWebWorker.js:24-25 | cache-busting an already cache-busted URL always appends with `&` |
| `ConfigWebWorker.WebworkerConfigTable` | _base/configWebWorker.js:34-59 | `webworkerConfig` lists only the key `loaderPatch`, and its value is the patch bound to the chosen strategy |
| `ConfigWebWorker.InstalledSettings` | _base/configWebWorker.js:60-62 | after the install loop, the top-level keys are the old keys plus `loaderPatch` |
| `ConfigWebWorker.InstalledSettingsSpec` | _base/configWebWorker.js:60-62 | after the install loop, `loaderPatch` holds the patch bound to the chosen strategy; no other top-level key is added, removed or changed |
| `ConfigWebWorker.Config.Install` | _base/configWebWorker.js:60-62 | the in-place loop leaves the top-level entries equal to the table written over the old entries; `hasCache` is unchanged |
| `ConfigWebWorker.InjectUrl` | _base/configWebWorker.js:36-44 | the script is imported from the URL as given; the callback runs exactly once if the import succeeds and never if it fails; one diagnostic naming the URL is logged when the import or the callback throws; nothing else happens on the host (one import, then at most the callback and one diagnostic); the call always returns |
| `ConfigWebWorker.TextAccepted` | _base/configWebWorker.js:49 | status 200 is always accepted; any other accepted status is 0, and then only when the host is empty |
| `ConfigWebWorker.GetText` | _base/configWebWorker.js:45-57 | the request goes to `fixupUrl(url)`; `onLoad(body, async)` runs exactly once, with the caller's `async` flag, iff the status is 200 or (the host is empty and the status is 0) and a callback was passed, and otherwise never; a rejected status is logged once; nothing else happens on the host (one request, then at most one `onLoad` call or one diagnostic); when the call returns, it returns the response body, accepted or not; an exception from `send` or from `onLoad` propagates |
| `ConfigWebWorker.FetchAccepted` | _base/configWebWorker.js:49-56 | a resource answered with status 200 and body "hello" gives exactly one call `onLoad("hello", false)`, no diagnostic, and returns "hello" |
| `ConfigWebWorker.FetchRejected` | _base/configWebWorker.js:49-56 | a resource answered with status 404 gives no `onLoad` call and one diagnostic carrying 404, and still returns the body |
| `ConfigWebWorker.WebworkerDojoConfig` | _base/configWebWorker.js:1-63 | the bootstrap leaves `hasCache` patched and `config` with the loader patch bound to the strategy `has("config-cacheBust")` selects; `global.window` refers to `global` itself |

## Left out

- The tests (`tests/_base/loader/hostenv_webworkers.js`, `tests/_base/configWebWorker/worker4-1.js`) are left out. They start workers and exchange messages, which is browser I/O and concurrency.
- `importScripts` and `XMLHttpRequest` are not modelled. Each is a parameter: a function from URL to outcome (loaded or thrown; status and body, or thrown).
- `new Date()` is replaced by a `token` parameter, because a clock is nondeterministic.
- Console output is modelled only as `Diagnostic` values in the trace (the URL and cause, or the status). The exact message text is not modelled.
- `url += ""` turns a non-JavaScript string into a string. The model takes URLs as strings already, so this conversion is not modelled.
- `TextAccepted` models only two JavaScript falsy values. `!location.host` is modelled as "the host string is empty", so a missing host is written as "". `!xhr.status` is modelled as "the status is 0". Statuses are unbounded integers.
- `Config.hasCache` holds integer flags only. JavaScript allows a flag of any type; the patch writes only the integers 0 and 1.
- `config.hasCache` is kept apart from the other top-level entries of `config`. The install loop writes only `loaderPatch`, so this separation hides nothing. The `Config` constructor requires that `settings` has no `hasCache` entry. A config holding a second `hasCache` beside the table cannot exist in JavaScript, so it is outside the model.
- `GlobalContext` has only the `window` field. The rest of the worker's global object is not modelled.
- The `async` argument of `getText` only reaches `onLoad`. The request is always synchronous (`xhr.open(…, false)`), as in the source.
- What the loader does with the patch later (module resolution and the dependency graph) is not part of this model.
