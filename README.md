# play-es6: on-demand ES6 transpilation cache and request gate

This project models the core of the Play 1 plugin `ES6Plugin`, which sits in
front of Play's static-file pipeline. When a `.es6` file is requested by a
mobile user agent, the plugin answers the request itself: from its cache when
the stored modification time equals the file's, otherwise by compiling the
file with the worker thread's Babel engine. A successful compile is stored
and printed with status 200 and type `text/javascript`. A failed compile
leaves the cache alone and yields a 500 `text/html` error page, which carries
the line number scanned from the compiler's message. Every other request is
delegated to the parent plugin.

Files:

- `wrappers.dfy`: `Option`, for Java references that may be null.
- `line_number.dfy` (module `LineNumber`): `getLineNumber`. The pattern
  `line ([0-9]+)` is modelled as the scan it performs. That is a leftmost
  match, then a greedy digit run, then a decimal parse.
- `device_gate.dfy` (module `DeviceGate`): `mobileCheck`. The eight-way
  alternation is scanned position by position, one alternative at a time,
  and proved equivalent to "some marker is a case-sensitive substring".
- `es6_plugin.dfy` (module `ES6Plugin`): the `CompiledES6` entry and
  `Serve`, the specification of `serveStatic` on one request. It also holds
  lemmas over single requests and over request sequences (`Run`), and the
  classes `Response`, `Worker` (one thread's bindings and engine) and
  `Plugin` (the cache, `OnLoad`, `ServeStatic`). `Plugin.ServeStatic` runs
  the source's steps in order and is proved to equal `Serve`.

The Babel engine is opaque: a total function from source text to an
`EvalResult`. That result is an output text, `null`, or a `ScriptException`
with its message. A worker whose engine failed to initialise holds `None`.
`Worker.evalCount` counts engine invocations, so "a hit does not compile"
is stated about the real call count.

Two behaviours of the code are easy to miss:

- When the worker has no engine (loading `babel.min.js` failed), line 118
  dereferences `null`. The resulting `NullPointerException` is not covered by
  the `catch (ScriptException | FastRuntimeException)` clause, so it escapes
  `serveStatic`. The response is left at 200 / `text/javascript` and the
  cache is unchanged. The model calls this outcome `Raised`. It is not an
  error page.
- Only a `null` result counts as a failed compile. An empty output string is
  a success and is cached.

## Model

| member | source | states |
|---|---|---|
| `LineNumber.FindMatch` | src/play/modules/es6/ES6Plugin.java:66-67 | the result is the leftmost index at or after `from` where `line ` is followed by a digit, with no such index before it; None when there is no such index at or after `from`; a `line ` without a digit is skipped |
| `LineNumber.DigitRun` | src/play/modules/es6/ES6Plugin.java:36 | the greedy `[0-9]+`: every character in the run is a digit and the run ends at the end of the text or at a non-digit |
| `LineNumber.GetLineNumber` | src/play/modules/es6/ES6Plugin.java:65-71 | 0 when no `line <digit>` occurs; otherwise the parsed value of the maximal digit run after the first occurrence |
| `LineNumber.Parse` | src/play/modules/es6/ES6Plugin.java:68 | `Integer.parseInt` of k digits gives a value below 10^k, and a leading zero does not change it |
| `LineNumber.ParseDecimal` | src/play/modules/es6/ES6Plugin.java:68 | parsing the decimal rendering of n gives back n |
| `LineNumber.LineOfReport` | src/play/modules/es6/ES6Plugin.java:65-71 | a message made of text without the pattern, then `line ` and the decimal n, then anything not starting with a digit, reports line n |
| `LineNumber.FortyTwo` | src/play/modules/es6/ES6Plugin.java:65-71 | the message `line 42` reports line 42 |
| `DeviceGate.AlternativeAt` | src/play/modules/es6/ES6Plugin.java:38-39 | trying the alternatives from j in order at one position succeeds exactly when one of them occurs there |
| `DeviceGate.FindFrom` | src/play/modules/es6/ES6Plugin.java:80 | the find scan from a position succeeds exactly when some marker occurs at or after that position |
| `DeviceGate.FindIsContains` | src/play/modules/es6/ES6Plugin.java:80 | the scan from 0 succeeds exactly when some marker is a substring |
| `DeviceGate.MobileCheck` | src/play/modules/es6/ES6Plugin.java:79-81 | false for an absent agent; otherwise true exactly when one of the eight markers is a case-sensitive substring |
| `DeviceGate.MarkerAnywhere` | src/play/modules/es6/ES6Plugin.java:38-39 | any agent that embeds one of the markers anywhere is mobile |
| `DeviceGate.NoCapitalsNotMobile` | src/play/modules/es6/ES6Plugin.java:38-39 | the match is case-sensitive: an agent without capital letters is never mobile |
| `ES6Plugin.InScope` | src/play/modules/es6/ES6Plugin.java:98-99 | the plugin answers exactly when the file name ends in `.es6` and the user agent is present and contains one of the mobile markers |
| `ES6Plugin.IsHit` | src/play/modules/es6/ES6Plugin.java:109-110 | a hit is exactly an entry for the relative path whose stored modification time equals the file's |
| `ES6Plugin.FailureMessage` | src/play/modules/es6/ES6Plugin.java:119-128 | a script error reports its own message; a null result reports `compilation error!`, which names no line, so its line number is 0 |
| `ES6Plugin.Response.CacheFor` | src/play/modules/es6/ES6Plugin.java:103-105 | records the cache duration and changes no other response field |
| `ES6Plugin.Response.Print` | src/play/modules/es6/ES6Plugin.java:111 | appends the text to the body and changes no other response field |
| `ES6Plugin.Response.RenderErrorPage` | src/play/modules/es6/ES6Plugin.java:126-133 | records the exception the 500 page renders and changes no other response field |
| `ES6Plugin.Prepared` | src/play/modules/es6/ES6Plugin.java:101-105 | the in-scope preamble sets status 200 and type `text/javascript`, sets the one-hour cache duration only in production, and leaves the body alone |
| `ES6Plugin.Serve` | src/play/modules/es6/ES6Plugin.java:97-139 | pass-through changes nothing and delegates; a hit prints the cached output without compiling or touching the cache; a miss binds the source and compiles once; a success stores exactly `(lastModified, output)` under the path and prints it with 200; a failure keeps the cache and sets 500 `text/html` with the error's line from `GetLineNumber`; with no engine the exception escapes and the cache is kept; every in-scope request answers true unless it escapes |
| `ES6Plugin.RepeatIsHit` | src/play/modules/es6/ES6Plugin.java:108-123 | after a hit or a successful compile, the same request again is a hit: no compile, same cache, the same output printed |
| `ES6Plugin.StaleEntryReplaced` | src/play/modules/es6/ES6Plugin.java:110-122 | an entry with another modification time is a miss; a successful recompile replaces it with the new time, adds no key, and the file is then a hit |
| `ES6Plugin.RunKeepsKeys` | src/play/modules/es6/ES6Plugin.java:109-122 | over any request sequence no cached path is ever removed (there is no eviction) |
| `ES6Plugin.FailuresNotCached` | src/play/modules/es6/ES6Plugin.java:118-133 | over any request sequence in which no request for path p compiles successfully against the cache it meets (each one is a pass-through, a hit, a failed compile or an escaped exception), p's entry or its absence is exactly as before |
| `ES6Plugin.NeverCompiledNeverCached` | src/play/modules/es6/ES6Plugin.java:92-133 | starting from onLoad's empty cache, a path for which no request has compiled successfully has no entry, whatever engines served its pass-through requests |
| `ES6Plugin.ModificationScenario` | src/play/modules/es6/ES6Plugin.java:108-123 | compile at t1 stores `(t1, out)`; the repeat at t1 does not compile and gives the same response; a request at t2 recompiles and stores `(t2, out)` |
| `ES6Plugin.Worker.Put` | src/play/modules/es6/ES6Plugin.java:115-116 | binds the key to the value, keeps every other binding and does not call the engine |
| `ES6Plugin.Worker.Eval` | src/play/modules/es6/ES6Plugin.java:115-118 | the engine is applied to the source bound to `input`, once (the call count grows by one), and the bindings are unchanged |
| `ES6Plugin.Plugin.constructor` | src/play/modules/es6/ES6Plugin.java:60 | a new plugin holds the empty cache |
| `ES6Plugin.Plugin.OnLoad` | src/play/modules/es6/ES6Plugin.java:91-94 | the cache is reset to empty |
| `ES6Plugin.Plugin.ServeStatic` | src/play/modules/es6/ES6Plugin.java:96-139 | the outcome, the new cache, the new response fields, the worker's `input` binding and its engine call count are exactly those `Serve` specifies for the old cache and response |

## Left out

- The `ThreadLocal` bindings and engine and their lazy construction (lines 40-59, 83-89). The model is sequential, and each worker is given its engine (or `None`) when it is created.
- Loading `babel.min.js` and the Babel transform itself. These are foreign I/O and an opaque JavaScript engine, so the engine is a parameter.
- Rendering the `errors/500.html` template and `play.Logger`. The response records the `CompilationError` the page would render (`errorPage`), not the HTML. The `-1` column fields are always the same and are dropped.
- `response.cacheFor("1h")` is recorded as the duration string, not as the HTTP header it produces.
- Races on the unsynchronised `HashMap` shared by worker threads. This is concurrency and lies outside a sequential model.
- `LineNumber.GetLineNumber`: returns the unbounded value of the digit run. `Integer.parseInt` would throw `NumberFormatException` for values above 2147483647, and that exception is not modelled.
- A `null` exception message (which would make the matcher throw) is not modelled. Messages are strings.
- The parent `PlayPlugin.serveStatic` is not part of this model. Delegation is the outcome `Delegated`, which stands for whatever the parent returns.
- `Http.Request` and `Http.Header` are not part of this model. The user agent is the header's string rendering, or `None` when the header is absent.
- `ES6Plugin.Plugin.constructor`: the Java field is `null` until `onLoad` runs. The model starts from the empty map that `onLoad` sets, so a request served before `onLoad` is not modelled.
- `file.lastModified()` is read twice (lines 110 and 122). The model reads it once, assuming the file does not change during one request.
