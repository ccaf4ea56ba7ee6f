# plone.cachepurging, modelled in Dafny

This project models the purging core of `plone.cachepurging`. That core
has three parts.

- **The purge dispatcher** (`purger.py`) sends HTTP `PURGE` requests to
  caching proxies such as Varnish or Squid. It keeps one bounded FIFO queue
  and one worker per `(host, scheme)` key, and creates the pair on first use.
  `purgeAsync` enqueues without blocking and drops the item when the queue
  is full. The worker dequeues items and tries each one up to five times.
  It stops early on 200, on 404 or on any exception. `stopThreads` sets
  every worker's `stopping` flag and pushes a wake-up entry onto every
  queue that has room. `purge` and `purgeSync` read the `x-cache` header
  and the first non-empty error header off a response.
- **The virtual-hosting rewriter** (`rewrite.py`) turns a site path into one
  `/VirtualHostBase/<scheme>/<host><root>/VirtualHostRoot<prefix><path>`
  path per configured domain. When the request did not go through the
  Virtual Host Monster, or is not compliant, it returns `[path]` unchanged.
- **The utilities** (`utils.py`) do three things: report whether purging is
  enabled, flatten the paths of the path providers (passing relative paths
  through the rewriter), and turn a path into one purge URL per proxy.

Modules:

- `Purger` is the dispatcher, with the classes `HostQueue`, `Worker` and
  `DefaultPurger`.
- `Rewrite` is the rewriter.
- `Utils` holds the utilities.
- `Settings` holds the registry record.
- `Text` holds Python's `startswith`, `endswith`, `join`, `split` and
  `lower`.
- `Urls` holds the scheme and host part of `urlparse`.
- `Wrappers` holds `Option`.

The dispatcher's state is mutable in the source, so it is modelled with
classes:

- `queues` and `workers` are `map` fields of `DefaultPurger`.
- A queue's contents are a `seq` field of `HostQueue`.
- `Worker` has the fields `stopping`, `finished`, `parked` and `sent`.
  `finished` records that the thread body has returned. `parked` records
  that the thread is blocked inside `get()` on its empty queue. `sent` is
  the log of requests the worker's session has made.

`Worker.Run` is proved against the function `Drain`, and `Worker.PurgeItem`
against `ItemAttempts`. The lemmas about those two functions state the
retry rule, the FIFO order and the stop rule.

Inputs replace the things the model cannot see:

- The caching proxies are a `Network` value: the n-th request a session
  makes gets the n-th listed outcome, and later requests all get
  `otherwise`.
- The registry is an optional `CachePurgingSettings`.
- The path providers are a list of `PathProvider` values.
- The rewriter is an optional function.
- `debug_mode` is a boolean.
- Whether each worker ended within its `join(5)` is a function `terminated`.

The code and its module docstring disagree, and the model follows the code.
The docstring says a worker waits until it can reconnect. The code instead
discards an item after one failing attempt.

## Model

| member | source | states |
|---|---|---|
| Purger.HeaderIgnoresCase | plone/cachepurging/purger.py:53-56 | Header lookup ignores ASCII case: looking up the lower-cased name gives the same value as the name itself |
| Purger.HeaderMap | plone/cachepurging/purger.py:53-56 | The response's header dictionary stores every name lower-cased and holds an entry for every header line; a name that appears on several lines, in any case, gets their values joined by `", "` |
| Purger.HeaderMapLookup | plone/cachepurging/purger.py:53-56 | Looking a name up gives the values of all header lines with that name in any case, joined by `", "` in line order; the name is present exactly when some line has it, and otherwise the lookup gives `""` |
| Purger.CacheHeaderLookup | plone/cachepurging/purger.py:53 | `xcache` is the response's `x-cache` entry, or `""` when there is none |
| Purger.FirstErrorHeaderIsFirstHit | plone/cachepurging/purger.py:54-59 | `xerror` is empty exactly when every listed error header is empty; otherwise it is the value of the earliest non-empty one, and all headers before it are empty |
| Purger.FirstErrorHeaderIgnoresLater | plone/cachepurging/purger.py:55-59 | Headers listed after the first non-empty one never change `xerror` (the loop breaks on the first hit) |
| Purger.DefaultPurger.Purge | plone/cachepurging/purger.py:52-61 | The header loop produces the status, the `x-cache` value and the first non-empty error header; a raised request is reported as failed with its text |
| Purger.DefaultPurger.PurgeSync | plone/cachepurging/purger.py:63-83 | On a fresh session, an exception gives status `ERROR`, an empty `xcache` and the error text as `xerror`; otherwise the response status and both headers |
| Purger.DefaultPurger.constructor | plone/cachepurging/purger.py:34-40 | A new dispatcher has no queues and no workers and keeps its backlog and error headers |
| Purger.DefaultPurger.GetQueueAndWorker | plone/cachepurging/purger.py:121-140 | It returns the existing pair for a known key and creates nothing. An unknown key gets a fresh, empty queue and a fresh worker that is neither stopping nor parked and has sent nothing, both under that key. A key that is in `workers` but not in `queues` is a `ValueError`; one in `queues` but not in `workers` is a `KeyError`. When the two key sets were equal they stay equal and the lookup succeeds |
| Purger.DefaultPurger.PurgeAsync | plone/cachepurging/purger.py:85-101 | `(url, verb)` is appended at the end of its host's queue unless the backlog is positive and already reached. The item is then dropped, the queue is unchanged, and a warning is given unless in debug mode. On success the two dictionaries change only at the URL's key: a known key keeps its queue and worker objects, and a new key gets a fresh queue, which then holds only this request or nothing, and a fresh worker that is neither stopping, finished nor parked. Every other queue is unchanged, and lookup errors are passed on |
| Purger.DefaultBacklogNeverFull | plone/cachepurging/purger.py:135 | A queue made with the default backlog 0 is never full |
| Purger.HostQueue.constructor | plone/cachepurging/purger.py:135 | A new queue is empty and has the given maximum size (the dispatcher passes its backlog) |
| Purger.HostQueue.PutNowait | plone/cachepurging/purger.py:88-90 | A non-blocking put appends the entry exactly when the queue is not full; otherwise the queue is unchanged |
| Purger.HostQueue.Get | plone/cachepurging/purger.py:169 | `get` takes the oldest entry; an empty queue is where the real thread would block |
| Purger.Worker.constructor | plone/cachepurging/purger.py:150-156 | A new worker knows its queue, host, scheme and dispatcher and is not stopping |
| Purger.Worker.Stop | plone/cachepurging/purger.py:158-159 | `stop` sets `stopping` |
| Purger.ItemAttemptsRule | plone/cachepurging/purger.py:181-202 | One item gets at least one attempt and at most the budget, which is five for every worker (`attempts`). Every attempt but the last answered neither 200 nor 404 and did not raise. The last attempt did one of those three things, unless all five were used |
| Purger.ItemAttemptsFirstConclusive | plone/cachepurging/purger.py:186-198 | When attempt k is the first to answer 200 or 404 or to raise, exactly k attempts are made |
| Purger.ItemAttemptsNoneConclusive | plone/cachepurging/purger.py:181-200 | When no attempt answers 200 or 404 or raises, all five are made |
| Purger.Worker.PurgeItem | plone/cachepurging/purger.py:181-202 | The session sends the item exactly the number of times the retry rule gives, and nothing once `stopping` is set |
| Purger.Worker.Run | plone/cachepurging/purger.py:161-208 | A finished worker does nothing. A worker that is not stopping takes entries off the queue and sends requests exactly as `Drain` describes; it ends exactly when it has taken a wake-up entry, and is otherwise left parked inside `get()` on the empty queue. A stopping worker sends nothing: if it is parked, it takes the one entry `get()` hands it (the wake-up entry or a request it drops) and ends, or stays parked while the queue is empty; if it is not parked, it ends without taking anything |
| Purger.Worker.Serve | plone/cachepurging/purger.py:168-202 | The `while not self.stopping` loop: a stopping worker ends without taking anything; otherwise the queue loses the entries `Drain` takes, the session sends the requests `Drain` lists, and the worker ends or parks as `Drain` says |
| Purger.DrainStopsAtWake | plone/cachepurging/purger.py:168-176 | The worker ends exactly when the queue holds a wake-up entry. It then takes everything up to the first one; otherwise it empties the queue |
| Purger.DrainIsFifo | plone/cachepurging/purger.py:168-202 | Requests reach the proxy in queue order, each one between one and five times in a row |
| Purger.ExpandLength | plone/cachepurging/purger.py:181 | n queued requests cost between n and 5n requests to the proxy |
| Purger.DefaultPurger.StopWorkers | plone/cachepurging/purger.py:104-105 | Every worker has `stopping` set and nothing else about it changes |
| Purger.DefaultPurger.WakeQueues | plone/cachepurging/purger.py:106-112 | Every queue that was not full gets one wake-up entry at its end; full queues are unchanged |
| Purger.DefaultPurger.StopThreads | plone/cachepurging/purger.py:103-119 | All workers are stopping, each queue with room gets its wake-up entry, and the result is false exactly when waiting was asked for and some worker did not end; a worker whose thread body has returned always counts as ended |
| Purger.ShutdownReleasesParkedWorker | plone/cachepurging/purger.py:85-119 | With a backlog of one, a worker parked on its emptied queue takes the wake-up entry that `stopThreads` queues and ends, so the next `purgeAsync` is queued rather than dropped |
| Urls.ParseComposed | plone/cachepurging/purger.py:126-127 | A URL `scheme://host/...` splits into the lower-cased scheme and the host |
| Text.JoinSplit | plone/cachepurging/rewrite.py:66 | Joining the pieces of `s.split(c)` with `c` gives `s` back |
| Text.SplitJoin | plone/cachepurging/rewrite.py:66 | Splitting a `c`-join of pieces that do not contain `c` gives the pieces back |
| Rewrite.Rejected | plone/cachepurging/rewrite.py:44-52 | The compliance test fails exactly when the two request variables are not a list of 2 or 3 URL parts and a non-empty physical path |
| Rewrite.VirtualRootOfPhysicalPath | plone/cachepurging/rewrite.py:58-61 | The physical path `("", "a", ...)` gives the root `/a/...` |
| Rewrite.VirtualRootOfApplicationRoot | plone/cachepurging/rewrite.py:59-61 | The application root gives the empty root: `("",)` joins to `""` already, and `("", "")` joins to `/`, which is cleared |
| Rewrite.PathPrefix | plone/cachepurging/rewrite.py:63-66 | The prefix is empty exactly unless there are three parts with a non-empty middle one, and then it starts with `/` |
| Rewrite.PathPrefixRoundTrip | plone/cachepurging/rewrite.py:64-66 | Removing the leading `/` and each segment's `_vh_` from the prefix gives the middle URL part back |
| Rewrite.NormalizePath | plone/cachepurging/rewrite.py:68-70 | A non-empty path starts with `/` afterwards, gaining one only if it lacked it; the empty path stays empty |
| Rewrite.NormalizePathIdempotent | plone/cachepurging/rewrite.py:69-70 | Normalising twice is normalising once |
| Rewrite.VhmPathShape | plone/cachepurging/rewrite.py:75-84 | Every rewritten path starts with `/VirtualHostBase/` and ends with `/VirtualHostRoot`, the prefix and the path |
| Rewrite.VhmPathOfDomain | plone/cachepurging/rewrite.py:74-84 | For a domain `scheme://host` the path carries the lower-cased scheme and the host |
| Rewrite.RewritePath | plone/cachepurging/rewrite.py:19-86 | The result is `[path]` when `VIRTUAL_URL` is absent, there is no registry, virtual hosting is off or the request is not compliant. Otherwise there is one VHM path per configured domain, in domain order; with no domains there is exactly one, built from the first URL part |
| Utils.IsCachePurgingEnabledRule | plone/cachepurging/utils.py:9-18 | Purging is enabled exactly when the registry in use, passed in or else looked up, says so; with no registry it is off |
| Utils.RewrittenPathsWithout | plone/cachepurging/utils.py:33-35 | Without a rewriter the relative paths are kept as they are |
| Utils.RewrittenPathsIdentity | plone/cachepurging/utils.py:33-38 | A rewriter that gives each path back alone keeps the relative paths as they are |
| Utils.RewrittenPathsAgree | plone/cachepurging/utils.py:36-38 | Two rewriters that agree on each relative path, reading `None` as no paths, give the same paths |
| Utils.PathsToPurgeWithoutRewriter | plone/cachepurging/utils.py:29-43 | Without a rewriter the result lists each provider's relative paths and then its absolute paths, provider after provider; a `None` list gives nothing |
| Utils.PathsToPurgeIdentityRewriter | plone/cachepurging/utils.py:29-43 | The identity rewriter gives the same paths as no rewriter |
| Utils.PathsToPurgeOnlyRewritesRelative | plone/cachepurging/utils.py:29-43 | Absolute paths never reach the rewriter: rewriters that agree on all relative paths give the same result |
| Utils.AbsolutePathsKept | plone/cachepurging/utils.py:40-43 | Every absolute path of every provider is in the result, whatever the rewriter |
| Utils.PathsToPurgeAppend | plone/cachepurging/utils.py:29-43 | Providers contribute in order: the paths of two lists of providers are the paths of the first followed by those of the second |
| Utils.StripTrailingSlash | plone/cachepurging/utils.py:55-56 | A proxy base ending in `/` loses exactly that one character; other bases are unchanged |
| Utils.SlashPath | plone/cachepurging/utils.py:51-52 | The path starts with `/` afterwards, gaining one only if it lacked it, so the empty path becomes `/` |
| Utils.UrlsToPurge | plone/cachepurging/utils.py:46-57 | One URL per proxy, in proxy order; the i-th is the i-th proxy without its trailing `/`, followed by the normalised path |
| Utils.PurgeUrlTrailingSlash | plone/cachepurging/utils.py:54-57 | A proxy written with or without its trailing `/` gives the same URL |
| Utils.PurgeUrlKey | plone/cachepurging/utils.py:54-57 | A purge URL for the proxy `scheme://host` goes to the queue and worker of `(host, scheme)`, with the scheme lower-cased |

## Left out

- Threads and locks are left out: `threading.Lock`, the second test of the key under `queueLock`, `worker.start()`, `atexit` and the thread interleavings. Each operation is one atomic step, and `Run` is called explicitly.
- Purger.Worker.Run: it returns where the real thread would block on an empty queue, with `parked` set and `finished` false. Calling it again resumes inside that `get()`: the next entry is taken before `stopping` is tested. When run is called, and how often, is left to the caller, so the model does not promise that a stopped worker ever runs again.
- Purger.Worker.PurgeItem: `stopping` cannot change in the middle of the retry loop, because nothing else runs during a sequential step. So a stop that arrives between two attempts is not modelled; only a stop set before the loop, which gives no attempts, is.
- Purger.DefaultPurger.StopThreads: `join(5)` and `is_alive()` become the input `terminated`, and the five-second timeout is not modelled. It is also not modelled that a stopping worker really ends.
- The network is not modelled: `requests.Session`, `session.request`, the `(3, 27)` timeout and connection handling. Outcomes are given by a `Network` value indexed by the n-th request of a session. `purgeSync` uses a fresh session, so it reads the first outcome.
- The contents of the error text are not modelled: logging and `format_exception` appear only as an opaque string.
- The catch-all `except` around the worker's session is left out, because the model has no failure other than the proxy's outcome.
- `getConfiguration().debug_mode` is a boolean input; the warning is the `warned` flag of the result.
- Purger.DefaultPurger.PurgeAsync: the `ValueError` and `KeyError` that the source raises out of `getQueueAndWorker` are results (`NotQueued`), not exceptions.
- Purger.HeaderIgnoresCase: the case-insensitive header dictionary is modelled as a map keyed by ASCII lower-case names, built by `HeaderMap`; Unicode case folding is not modelled. A `Response` whose map was not built that way can hold names that are not lower-cased, and `Header` does not find those.
- Purger.HeaderMapLookup: the header dictionary comes from the HTTP client library, which is not part of this model. `HeaderMap` follows that library's documented behaviour: repeated header names are merged into one value joined by `", "`, as section 3.2.2 of RFC 7230 allows.
- Urls.ParseComposed: `urlparse` is reduced to splitting off the scheme and the host. It does no whitespace stripping and no port or IPv6 validation, and cannot raise a `ValueError`.
- The Zope component lookups are inputs, not modelled lookups: `queryUtility`, `registry.forInterface`, `getAdapters` and `IPurgePathRewriter(request, None)`. Adapter names are ignored.
- Rewrite.RewritePath: request values other than strings and lists, and non-string list elements, are not modelled.
- Dafny has no default arguments. The source's defaults are constants that callers pass: `DefaultBacklog`, `DefaultErrorHeaders` (`("x-squid-error",)`) and `DefaultVerb` (`"PURGE"`). `stopThreads`'s default `wait=False` is not a constant; callers pass `false`.
- `DEFAULT_PURGER`, the module-level `stopThreads`, `addCleanUp` and the `http_1_1` property (always true) are module setup, not logic.
- `getPathsToPurge` and `getURLsToPurge` are generators; the model produces the whole list at once.
- `setup.py` is packaging metadata.
