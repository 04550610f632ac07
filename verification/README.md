# Verification of harbor-router's request resolution

harbor-router answers registry requests by finding the Harbor proxy-cache project that holds an image. This
project models the engine that does so — cache, stale-while-revalidate refresh, singleflight, fan-out, circuit
breaker, warm-up, and the parsers and tables they rest on — and proves what it promises, in Dafny 4.11.
`dafny verify dfyconfig.toml` checks everything.

## How the model is laid out

| file | models |
|---|---|
| `Resolver.dfy` | `resolve_manifest`, `singleflight`, `parallel_lookup`, persist and warm-up as one step system: any number of requests, one step per atomic action, any interleaving |
| `Singleflight.dfy` | exclusion, delivery to followers and cancelled leaders in that system |
| `Delivery.dfy` | how a follower that comes late to a published flight ends |
| `Incidents.dfy` | concrete runs in which a reply is unheard or a leader dropped, and an error text that is misread |
| `Progress.dfy` | no request hangs |
| `NegativeCache.dfy` | what the negative sentinel stands for |
| `CacheRefinement.dfy` | the whole system against "ask every project" |
| `CacheEffects.dfy` | what each write makes later lookups find |
| `CacheHits.dfy` | the fast path: which answers of a cached project end a request, and what the others lead to |
| `FanOutSteps.dfy` | which projects a lookup asks, what their breakers learn, and the link from its steps to the result loop |
| `FanOut.dfy`, `Accept.dfy` | the result loop with its grace period; `content_type_matches` |
| `AcceptRanges.dfy` | what `content_type_matches` says of each form of media range, written out |
| `Breaker.dfy` | the circuit breaker call by call: a class that refines a function of the call history |
| `BreakerSteps.dfy` | the circuit breaker operation by operation: k concurrent calls on one project |
| `BreakerAnswers.dfy` | what availability calls answer under contention, and that calls in turn follow the call-by-call model |
| `BreakerQuiet.dfy` | when that breaker, at rest, agrees with its counter |
| `Retry.dfy` | the retry loop with its backoff |
| `CacheCodec.dfy`, `CacheKeys.dfy` | cache values and cache keys |
| `Warmup.dfy` | persisting hot entries and warming a cache from them |
| `Popularity.dfy` | the request counters with eviction |
| `PathParser.dfy`, `GoDuration.dfy` | registry paths; durations in Go's notation |
| `Text.dfy`, `Counting.dfy` | strings as Rust's `str` treats them; sums and the pigeonhole principle |

A run of the step system is a list of steps, each enabled where it is taken (`Resolver.Legal`, `Resolver.Run`).
The program counter of a task names its next atomic action. A channel also remembers, for the proofs only, who
leads its flight, what that leader's lookup saw and replied, and whether anybody heard the reply; no step
depends on these.

## Assumptions

- Atomics, maps and cache calls interleave sequentially consistently, one operation at a time. Weak memory is
  not modelled.
- Arithmetic is that of a release build without overflow checks: `u32` and `u64` wrap, and a `Duration` product
  that does not fit panics. The interleaved breaker is for fewer than 2^32 calls, so that its counter cannot wrap;
  the call-by-call breaker includes wrap-around.
- `tokio::sync::watch::Sender::send` stores its value only if a receiver is alive at that moment, `changed` sees a
  newer version or the loss of all senders, and a receiver created by `subscribe` has seen the current version.
- A request can be dropped at an await point only. Background refreshes and warm-up are not dropped.
- A cache entry may vanish at any moment (expiry and capacity), timers may fire at any moment unless a theorem
  gives arrival times, and a project's answer is any status, content type or error text unless a theorem says
  otherwise.
- The warm-up mappings survive serialisation unchanged.
- The project list is fixed during a run. For `CacheRefinement`, every candidate answers, so its name passes
  `is_safe_project_name` as discovery ensures.

## What the proofs found

- **Late followers.** The comment at `src/resolver.rs:345-347` says that a follower that subscribes after the leader
  has sent still sees the result. That holds exactly if some receiver was alive at the send (`LateFollowerEnds`);
  otherwise the late follower can only time out, and `UnheardPublish` is a run in which it does.
  `docs/architecture.md:131` speaks of a broadcast channel; the code uses `watch`.
- **Cancelled leaders.** The removal at `src/resolver.rs:409` is not run if the leader's client goes away at
  `src/resolver.rs:398-401`. The key then stays in the map for good and nobody leads for it again
  (`CancelledLeaderWedgesKey`, and the run `DroppedLeader`); its followers still end, by their timeout
  (`NoTaskIsStuck`). "The map is empty when all is quiet" holds exactly if the run dropped no leader
  (`LeftoversAreDropped`).
- **CLOSED iff failures < threshold** is true of the breaker call by call (`ReplayMeans`). Under interleaving it fails
  both ways, CLOSED at the threshold (`ClosedAtThreshold`) and OPEN at zero (`OpenAtZero`); it holds whenever no
  success overlaps a failure (`ClosedIffBelowThreshold`).
- **HALF_OPEN leaves no trace** as long as the clock does not go back (`RefusesIff`). Without that, a call is also
  admitted after a probe that an earlier, later-reading clock let through, and in no other case (`RefusesExactly`;
  `BackwardClockAdmits` is an instance). HALF_OPEN admits every caller, not a single probe.
- **`|` in a project name**, which `is_safe_project_name` permits, is exactly what breaks the value codec and, with
  timestamps, both warm-up round trips (`DecodeEncoded`, `BlobsAreRoutedAsBefore`, `ManifestsAreRoutedAsBefore`).
  Without timestamps the manifest round trip breaks for another reason: entries are persisted decoded but read as
  they are, so a project such as `a|5`, which looks stamped, comes back as `a`. For the memory of a found project the
  one other exception is a project named like the sentinel (`FoundIsFoundAgain`).
- **`:` in an image name.** Two images can share a cache key exactly when one is the other up to a colon
  (`ImagesCollideIff`); so a plain image shares keys with every image that extends it by a colon, and images without
  colons share none among themselves. The refinement theorem is for those.
- **Negative caching reads error texts.** A lookup in which some answer was an error is taken for "not found" exactly
  if the last error's text holds the phrase "not found in any proxy-cache project" (`ClassifiesFailures`). The code's
  own "timeout probing" text does so for a project whose safe name ends in that phrase (`OddProjectTimesOutAsNotFound`).
- **Main types are compared case-sensitively** in ranges over one main type, against section 3.1.1.1 of RFC 7231.
  `AgreesWithRfcIff` says which Accept headers are read right all the same.
- **A blob path whose image swallows `/manifests/`** is refused (`PrintedParses`).
- **`ms` cut in two.** "5m" and "s" concatenate to a readable duration although "s" is none; that cut is the only way
  in which the rest of a readable string is unreadable (`RestIsReadableIff`).

## Model

| member | source | states |
|---|---|---|
| CacheRefinement.ResolvesLikeAskingEveryProject | src/resolver.rs:144-601 | Over all runs against a steady upstream, from an empty cache, with expiry, eviction, refresh, cancellation and warm-up in any interleaving: every finished request is a 200 of a candidate project that really holds the manifest, or "not found" when no candidate holds it; the one exception is a task that waited as a follower and timed out in that run |
| CacheRefinement.NoBreakerEverOpens | src/circuit_breaker.rs:45-144 | In such runs every breaker stays CLOSED and admits every call |
| CacheRefinement.LookupIsRight | src/resolver.rs:514-601 | A fan-out over truthful answers, stopped at any permitted moment, replies what asking every candidate replies |
| CacheRefinement.StepKeepsInv | src/resolver.rs:144-601 | Every step keeps: each cached value names a candidate that holds the manifest, or is the sentinel and none does |
| Singleflight.AtMostOneLeader | src/resolver.rs:348-358 | In every reachable state two tasks never lead for the same key, cancellations included |
| Singleflight.FlightsAreLed | src/resolver.rs:348-411 | In a run that cancels no leader for a key, the key is in the map exactly while a task between insert and remove leads for it; that task is the only one, and the stored flight is its own |
| Singleflight.LeftoversAreDropped | src/resolver.rs:396-411 | When all tasks are done, a key is left in the map iff the run cancelled a leader for it, so the map is empty iff it cancelled none |
| Singleflight.RemoveKeepsInv | src/resolver.rs:409 | The remove always takes out the leader's own flight |
| Singleflight.FollowerDelivery | src/resolver.rs:360-393 | A follower that subscribed before the send can receive as soon as it is sent, gets exactly the leader's reply, and the errors "leader dropped channel" and "leader sent empty result" never occur |
| Delivery.LateFollowerEnds | src/resolver.rs:345-409 | From any reachable publish with a task that has taken the sender but not subscribed: however the run goes on, that task ends with the leader's reply iff some receiver was alive at the publish, with its timeout otherwise, and in no other way but being cancelled |
| Incidents.UnheardPublish | src/resolver.rs:352-406 | A run from the start, for any request: the leader publishes before the follower subscribes, and the follower waits for a reply already sent, with nothing to receive |
| Incidents.DroppedLeader | src/resolver.rs:398-409 | A run from the start, for any request: the leader's client goes away while the project is asked, and the flight stays with a follower waiting on it |
| Singleflight.NeverWithoutSender | src/resolver.rs:384-387 | A waiting follower never sees all senders gone, since it keeps one itself |
| Singleflight.CancellingALeaderWedges | src/resolver.rs:398-409 | Dropping a leader while it waits for the projects leaves its flight in the map without a leader |
| Singleflight.CancelledLeaderWedgesKey | src/resolver.rs:398-409 | And in every later state that flight is still there, without a reply, and no task leads for its key |
| Progress.NoTaskIsStuck | src/resolver.rs:144-412 | In every reachable state an unfinished task has a step of its own to take, other than being cancelled, and over the whole run takes at most 10 + 2 * (projects considered) of them |
| Progress.StepsAreBounded | src/resolver.rs:144-412 | From any state: the steps a task has taken plus what is left for it never exceed what was left before |
| NegativeCache.SentinelIffUnanimous | src/resolver.rs:295-309 | A task about to cache an error, leader or follower, caches the sentinel iff its flight consulted some project and every consulted one answered with a status other than 200 |
| NegativeCache.CachedSentinelIsBacked | src/resolver.rs:155-180 | Whenever a request for a plain image would be answered "not found" from the cache, a completed, unanimous flight of that very key is on record |
| NegativeCache.ClassifiedIffUnanimous | src/resolver.rs:593-600 | The text of a failed lookup is classified "not found" iff the lookup was unanimous |
| NegativeCache.TimeoutIsNotClassified | src/resolver.rs:384-386 | A follower's timeout is never taken for "not found" |
| CacheHits.FoundMeans200 | src/resolver.rs:144-314 | In every run and whatever the projects answer: a request that ends with a response ends with one of status 200 |
| CacheHits.OtherAnswersFallThrough | src/resolver.rs:189-257 | When the cached project answers with an error or a status other than 200, the request has not finished; however the run goes on, its own next steps, unless its client leaves, are to evict and to join the singleflight, and only after both can it finish |
| CacheHits.HitIsAnswered | src/resolver.rs:155-246 | The cached project's 200 ends the request with that response and changes no entry; a background refresh of the same request starts iff stale serving is on and the entry looked up was older than the freshness limit at the lookup |
| FanOutSteps.AsksExactlyTheAdmitted | src/resolver.rs:423-503 | In every run and whatever the projects answer: a lookup asks exactly those of the first `max_fanout` projects, in order, whose breaker did not refuse at their check, where refusing means threshold reached, latest failure younger than the timeout, and no probe let through since; it fails with "all circuits open" iff that leaves none |
| FanOutSteps.ChecksAreRecorded | src/resolver.rs:459 | Every check is a call on that project's breaker |
| FanOutSteps.BreakersLearn | src/resolver.rs:481-495 | A 200 ends the project's failures in a row; a 4xx leaves them; any other status, and any error whose text does not say that no request could be made, adds one stamped now; other projects keep theirs |
| FanOutSteps.StopsAsTheLoopDoes | src/resolver.rs:522-600 | Whenever a lookup of the step system stops, there is a timing with which the result loop, run on what it heard followed by anything at all, stops at the same answer with the same reply |
| CacheEffects.FoundIsFoundAgain | src/resolver.rs:155-195 | After a found project is stored, and as long as nobody touches the entry, requests with that key go straight to it and see its true age, iff the project is not the sentinel and, with timestamps, holds no separator |
| CacheEffects.FailureIsRemembered | src/resolver.rs:290-309 | After a failed request, and as long as nobody touches the entry, requests with that key are answered "not found" unasked iff the failure was so classified or the key already answered so |
| CacheEffects.RefreshRestamps | src/resolver.rs:214-231 | A background refresh restarts the staleness clock of its entry, until it is touched, iff timestamps are on and the project is neither the sentinel nor holds a separator |
| CacheEffects.EvictedIsMissed | src/resolver.rs:247-257 | After an eviction, in any continuation in which nobody stores the key, every request with it misses and joins the singleflight |
| CacheEffects.BlobsFollowTheManifest | src/resolver.rs:274-325 | After a resolved request, blobs of its image are routed to the project that served it: for the same reference iff the project comes back from the codec, for a reference with an entry of its own iff that names the project, for all others always |
| CacheEffects.RefreshGoesOn | src/resolver.rs:203-237 | A background refresh that heard a 200 goes on to store a project that answered 200; any other ends and leaves the cache alone |
| CacheEffects.BlobsFollowTheRefresh | src/resolver.rs:212-227 | After a background refresh, blobs of its image are routed to the refreshed project: for the same reference iff the project holds no separator, for a reference with an entry of its own iff that names the project, for all others always |
| FanOut.CollectResults | src/resolver.rs:514-601 | The result loop: it stops where a match, the end or the grace timer stops it, and answers the verdict on what it consumed, for any arrival order, timing and mix |
| FanOut.Selection | src/resolver.rs:521-600 | For every arrival order, timing and mix: a response is returned iff some answer had status 200, and has status 200 itself; it is the first 200 that the client takes if no timer that a 200 armed cuts it off, else the first 200 in arrival order; an error is returned only after every answer was consumed |
| FanOut.HeaderDecides | src/resolver.rs:544-574 | Without an Accept header the first 200 ends the lookup at once; with one only a 200 of a listed type does, and the first 200 remains when none of these is in time |
| FanOut.MatchWithinGraceIsReturned | src/resolver.rs:514-534 | The first 200 that the client takes is the answer if it arrives within 200 ms of the first 200 |
| FanOut.FailureNamesTheLastError | src/resolver.rs:593-600 | A lookup without a 200 fails with the text of the last error in arrival order, or, if no answer was an error, with the text that names image and reference |
| FanOut.ClassifiesFailures | src/resolver.rs:593-600 | A lookup without a 200 is classified "not found" iff every answer was a status, or the last error's own text holds the phrase |
| FanOut.PrefixAddsNothing | src/resolver.rs:593-595 | The prefix of a failed lookup's text never completes the phrase |
| FanOut.OtherTextsAreNotClassified | src/resolver.rs:424-502 | "No projects" and "all circuits open" are not classified "not found" |
| Incidents.OddProjectTimesOutAsNotFound | src/resolver.rs:479 | A project whose name ends in the phrase: its timeout makes the failed lookup classified "not found" |
| Incidents.OddProjectIsSafe | src/discovery.rs:25-32 | And that name is safe |
| Accept.ContentTypeMatches | src/resolver.rs:1069-1101 | The nested loops with early returns decide whether some element of the flattened header list is a matching media range |
| Accept.CombiningKeepsVerdict | src/resolver.rs:1075-1077 | Joining two header values by a comma never changes the verdict (section 3.2.2 of RFC 7230) |
| Accept.AgreesWithRfcIff | src/resolver.rs:1086-1093 | An Accept header is read as RFC 7231 has it, for every response type, iff it lists the full wildcard or, with each range over one main type, every upper- and lower-case spelling of that type |
| Accept.WildcardInOtherCaseIsMissed | src/resolver.rs:1086-1093 | Every `type/*` range written in another case is missed |
| AcceptRanges.ElementsDecide | src/resolver.rs:1075-1100 | A list matches iff one of its elements alone does |
| AcceptRanges.FullWildcardTakesAll | src/resolver.rs:1083-1085 | `*/*` anywhere in a list, with white space and parameters or without, takes every response |
| AcceptRanges.WildcardTakes | src/resolver.rs:1086-1096 | `main/*` alone takes the responses of exactly that main type, or all if `main` is a star; a response whose own subtype is a star is compared up to case |
| AcceptRanges.FullTypeTakes | src/resolver.rs:1094-1096 | A full type alone takes exactly the responses equal to it up to ASCII case |
| AcceptRanges.EmptyTakesNothing | src/resolver.rs:1078-1082 | A list of elements that are empty but for white space and parameters takes nothing |
| Breaker.ReplayMeans | src/circuit_breaker.rs:45-144 | Call by call: the counter is the trailing failures modulo 2^32, the stamp the latest failure, and CLOSED iff the trailing failures are below the threshold |
| Breaker.RefusesExactly | src/circuit_breaker.rs:45-79 | For every history, clock jumps and wrap-around included: a call is refused iff the trailing failures reach the threshold, the latest is younger than the timeout by this reading, and no probe was let through since the state was last settled |
| Breaker.RefusesIff | src/circuit_breaker.rs:45-79 | Hence, with a clock that does not go back, iff the trailing failures reach the threshold and the latest is younger than the timeout |
| Breaker.BackwardClockAdmits | src/circuit_breaker.rs:49-77 | An instance in which a clock that goes back makes the difference |
| Breaker.FailedProbeReopens | src/circuit_breaker.rs:112-138 | A failure at or past the threshold always leaves the breaker OPEN, also after a probe |
| Breaker.NeverRefusedPastTimeout | src/circuit_breaker.rs:49-77 | No project is refused once its latest failure is older than the timeout, whatever the history |
| Breaker.CircuitBreaker.IsAvailable | src/circuit_breaker.rs:45-79 | The method keeps every project's fields equal to the replay of the history and refuses exactly as that theorem says |
| Breaker.CircuitBreaker.RecordSuccess | src/circuit_breaker.rs:82-110 | Likewise; afterwards the project has no trailing failures |
| Breaker.CircuitBreaker.RecordFailure | src/circuit_breaker.rs:112-144 | Likewise; one more trailing failure, stamped now, and OPEN at the threshold |
| BreakerSteps.AttemptsBounded | src/circuit_breaker.rs:86-138 | In any run of k concurrent calls, none tries more than k compare-and-swaps or wins more than one, both counted over the run |
| BreakerSteps.ChargedToOthers | src/circuit_breaker.rs:86-138 | Each lost compare-and-swap of a call is charged to a transition of its own, made by a call of its own, never by the loser |
| BreakerSteps.LossHasACause | src/circuit_breaker.rs:88-103 | A lost compare-and-swap means another call moved the state since this one read it |
| BreakerSteps.AllCallsReturn | src/circuit_breaker.rs:45-144 | Any schedule of k calls has at most k * (k + 8) atomic steps |
| BreakerSteps.TransitionsBalance | src/circuit_breaker.rs:60-130 | In every reachable state, for each state s: transitions in minus out, counted or pending, is [current = s] - [s = CLOSED] |
| BreakerSteps.TransitionsAreJustified | src/circuit_breaker.rs:112-138 | A transition into OPEN was made by a failure whose increment was at least the threshold-th since the latest reset; HALF_OPEN is entered from OPEN by a probe; while OPEN the stamp is some failure's |
| BreakerSteps.ClosedAtThreshold | src/circuit_breaker.rs:82-138 | A schedule that ends quiet, CLOSED, with the counter at the threshold |
| BreakerAnswers.RefusesByWhatItReads | src/circuit_breaker.rs:45-79 | In every schedule: an availability call answers false iff the state it loaded was OPEN and the clock it then read was short of the stamp it then read plus the timeout |
| BreakerAnswers.HalfOpenIsDue | src/circuit_breaker.rs:49-74 | In every schedule: each transition into HALF_OPEN was made by an availability call that loaded OPEN and read a clock at least the timeout past the stamp it read |
| BreakerAnswers.SerialCallsFollowTheHistory | src/circuit_breaker.rs:45-144 | Calls run one after another, in any order and with any clocks: each availability call refuses iff the history of the calls before it says so, in the terms of `RefusesExactly` |
| BreakerAnswers.SerialStateIsReplay | src/circuit_breaker.rs:45-144 | And the atomics are then the replay of that history |
| BreakerAnswers.SerialIsASchedule | src/circuit_breaker.rs:45-144 | Running calls one after another is one of the schedules of the interleaved breaker |
| BreakerQuiet.ClosedIffBelowThreshold | src/circuit_breaker.rs:82-138 | For any calls in any schedule in which no success overlaps a failure: whenever neither is under way, CLOSED iff the counter is below the threshold |
| BreakerQuiet.OpenAtZero | src/circuit_breaker.rs:82-138 | With overlap, a schedule that ends quiet, OPEN, with the counter at zero |
| Retry.FetchWithRetry | src/resolver.rs:671-732 | For any outcomes: at most max(1, attempts) fetches, the first non-retryable outcome or the last allowed one is returned, the total sleep is base * (2^min(r, 32) - 1), and it panics exactly when a delay exceeds the longest duration |
| Retry.RetriedIff | src/resolver.rs:1007-1019 | Retried are exactly the statuses 502, 503 and 504 and the errors whose text holds one of five phrases |
| Retry.FactorIs | src/resolver.rs:687 | The wrapping power of two doubles up to 2^31 and is zero from attempt 32 on |
| Retry.SleptClosedForm | src/resolver.rs:679-709 | The delays of r retries sum to that closed form |
| CacheCodec.DecodeEncoded | src/resolver.rs:1045-1062 | Decoding gives back project and timestamp iff the project holds no separator |
| CacheCodec.EncodedYieldsIff | src/resolver.rs:1045-1062 | And so for the project alone |
| CacheCodec.ParsePrinted | src/resolver.rs:1056 | Decimal printing and the overflow-checked `u64` parse are inverse, and exactly the larger numbers are refused |
| CacheCodec.AccumulateIsValue | src/resolver.rs:1056 | The checked accumulation accepts exactly the digit strings whose value fits |
| CacheCodec.EncodedIsNotSentinel | src/resolver.rs:1045-1053 | An encoded value is never the sentinel |
| CacheCodec.EncodedSentinelIff | src/resolver.rs:1045-1062 | And it decodes to the sentinel iff the project is the sentinel |
| CacheCodec.ParsesIff | src/resolver.rs:1056 | Parsed are exactly the digit strings, after one optional plus sign, whose value fits 64 bits |
| CacheCodec.HotEntries | src/resolver.rs:926-931 | An entry, bare or with a timestamp, is persisted iff its project is safe and not the sentinel, and then as that project |
| Text.SafeProjectNameIff | src/discovery.rs:25-32 | A project name is safe iff it is not empty, holds no slash, backslash, two dots in a row or control character, and has no white space at either end |
| CacheKeys.SplitRecoversImage | src/resolver.rs:887 | Splitting a manifest key at its first colon gives back the image iff the image holds none |
| CacheKeys.ManifestKeyInjective | src/resolver.rs:151 | Images without colon: equal keys have equal images and references |
| CacheKeys.ImagesCollideIff | src/resolver.rs:151 | Two different images can share a key iff one is the other up to a colon |
| CacheKeys.ColonImagesCollide | src/resolver.rs:151 | The common case: a tag of one image is a digest of another |
| CacheKeys.FamiliesDisjoint | src/resolver.rs:141-151 | A manifest key is none of the image, tags, discovery and warm-up keys |
| CacheKeys.NormalizeIdempotent | src/proxy.rs:600-606 | Normalising twice is normalising once, and a normalised image is plain iff the name had no colon |
| Warmup.BlobsAreRoutedAsBefore | src/resolver.rs:318-325 | After persisting and warming, in any iteration order and over any previous content, blobs of a hot request are routed as before iff its project holds no separator or no timestamp is attached |
| Warmup.ManifestsAreRoutedAsBefore | src/resolver.rs:155-195 | And the hot request itself goes straight to the same project as before iff, with timestamps, its project holds no separator, and without, its entry does not look stamped |
| Warmup.OthersAreRoutedByImage | src/resolver.rs:886-891 | Blobs of any other request are routed by what the cache had for it, else by a persisted reference of its image if there is one, else as before |
| Warmup.WarmedManifest | src/resolver.rs:876-886 | Every safe mapping gets its value; other keys keep what they had |
| Warmup.WarmedImage | src/resolver.rs:887-891 | Each image key gets the project of one of that image's keys |
| Warmup.StepsPersist | src/resolver.rs:921-947 | In the step system: a persisting round replaces the persisted mappings by the hot ones, unless there are none |
| Warmup.StepsWarm | src/resolver.rs:866-893 | In the step system: loading and writing, over any content and whatever was loaded before, writes the two entries of each safe persisted mapping |
| Warmup.SentinelIsHandedOutIff | src/resolver.rs:318-325 | `cached_project` hands out the sentinel iff the manifest entry is the sentinel, stamped or not, or there is none and the image entry is the bare sentinel |
| Warmup.SharedCache.PersistHotEntries | src/resolver.rs:910-958 | Writes exactly the hot mappings under the warm-up key, or nothing when there are none |
| Warmup.SharedCache.WarmFromShared | src/resolver.rs:866-908 | Writes exactly the two entries of each safe mapping, in some order of its own |
| Warmup.Restart | src/resolver.rs:866-976 | Persist, restart and warm end to end: every hot request has its blobs and its manifests routed as before, each under its exact condition |
| Popularity.RequestsAreConserved | src/metrics.rs:370-400 | Over any run, key by key: live counts plus evictions are the requests |
| Popularity.CallsAreAccountedFor | src/metrics.rs:370-400 | From an empty table, counts plus evictions add up to the number of calls |
| Popularity.SizeIsBounded | src/metrics.rs:431-462 | The table never exceeds its capacity |
| Popularity.HotEntriesStay | src/metrics.rs:431-446 | An entry requested twice is never evicted and from then on its count is exact |
| Popularity.SaturatedIsFrozen | src/metrics.rs:431-446 | A full table in which every entry was requested twice never changes its keys again |
| Popularity.TopIsBest | src/metrics.rs:402-414 | A top list holds distinct eligible entries, as many as fit, and nothing left out counts more |
| Popularity.ReportedEntriesStay | src/metrics.rs:402-446 | What a top list reports keeps an exact count through every later request |
| Popularity.Metrics.RecordManifestRequest | src/metrics.rs:370-385 | Each call is one legal step of the table for that image and reference; the blob table stays |
| Popularity.Metrics.RecordBlobRequest | src/metrics.rs:388-400 | Likewise for blobs |
| Popularity.Metrics.TopManifestImages | src/metrics.rs:402-414 | Returns the first n of some sorting of the eligible entries by count |
| Popularity.Metrics.TopBlobImages | src/metrics.rs:416-428 | Likewise for blobs |
| Popularity.Metrics.KeysToRemove | src/metrics.rs:431-442 | Takes nothing from a table within capacity, else a tenth of the capacity of the entries counted once, or all of them if fewer |
| PathParser.ParsesExactlyPrints | src/proxy.rs:611-655 | A path parses to a request iff it is the print of that request and the request is expressible: safe parts, and for blobs an image that swallows no `/manifests/` |
| PathParser.PrintedParses | src/proxy.rs:611-655 | Printing safe parts parses back for manifests and tags always, for blobs iff the image swallows no `/manifests/`; such a path is refused |
| PathParser.ManifestsInBlobPath | src/proxy.rs:624-641 | In a printed blob path every `/manifests/` lies in the image and the slash after it |
| PathParser.SafeReferenceIff | src/proxy.rs:587-594 | A reference is safe iff it is not empty, holds no slash, backslash, two dots in a row or control character, and has no white space at either end |
| PathParser.SafeImageIff | src/proxy.rs:573-581 | An image name likewise, with slashes allowed inside |
| PathParser.OrdinaryPathsParse | src/proxy.rs:611-655 | Every path over the usual characters of names, tags and digests, without two dots in a row or slashes at the ends of the image, parses into its parts; a blob path iff its image swallows no `/manifests/` |
| GoDuration.ParseGoDuration | src/config.rs:316-356 | The character loops compute the sum over the greedy reading, kept in 64 bits, for any value of a token |
| GoDuration.ParsesIffTokens | src/config.rs:316-356 | A string has a value iff it is the print of a non-empty token list whose values sum to it |
| GoDuration.ReadingIsUnique | src/config.rs:337-350 | Every string has at most one reading as tokens, despite `m` and `ms` |
| GoDuration.NumbersAreReadable | src/config.rs:325-352 | A whole or decimal number followed by a unit is one token, such as `300ms`, `10s`, `5m` or `1.5h` |
| GoDuration.ParseIsHomomorphism | src/config.rs:316-356 | Concatenating two durations adds their values |
| GoDuration.RestIsReadableIff | src/config.rs:337-341 | After a readable prefix the rest of a readable string is readable iff the cut does not split `ms` |

## Left out

- HTTP clients, TLS, axum routing, blob streaming, header copying, rate limiting and health endpoints: I/O. An upstream request is an arbitrary outcome.
- Redis, Sentinel and Moka: the cache is one map whose entries may vanish at any moment. That Redis and its local fallback agree is not claimed, and time-to-live values are not modelled.
- Discovery polling: the project list is an input.
- Metric values other than the breaker's transition counters and the popularity tables, their rendering, logging, and settings from the environment.
- Tag resolution and blob probing: simpler variants of the fan-out.
- Serialisation of the warm-up mappings: assumed to be undone by parsing.
- Breakers of different projects interact nowhere, so `BreakerSteps` has one project; the map from projects to their atomics is in `Breaker`.
- Weak-memory effects.
- Resolver.Apply: updates the shared maps as one value per step, not objects in place, because tasks interleave between any two steps.
- Resolver.Fetch: a request to the cached project with its retries is one step with one outcome; the retries themselves are in `Retry`.
- Warmup.SharedCache.PersistHotEntries: one call is one step here, for the exact round trip; its interleaving with requests is in `Resolver`.
- Popularity.Metrics.RecordManifestRequest: one call is one step; two threads that count and evict at once are not modelled.
- GoDuration.ParseGoDuration: the value of one token is a parameter, because it is computed in binary floating point.
- FanOut.CollectResults: whether the timer fires before an answer is an input; only `MatchWithinGraceIsReturned` speaks of instants.
- NegativeCache.SentinelIffUnanimous: about the projects consulted, that is, those within the fan-out limit whose circuit admits a call. A project left out may hold the image while the sentinel is cached.
- BreakerQuiet.ClosedIffBelowThreshold: the condition on the schedule suffices; a success and a failure that overlap may also end well, and which overlaps do is not characterised.
