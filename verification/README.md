# Porxie: a verified model of serving and caching

Porxie is a proxy for the blobs of ATProto repositories. For a request (did, cid) it asks a policy service, fetches
the blob from the actor's own server (the PDS), checks that the bytes hash to the CID, that they fit the size cap
and sniff to an allowed media type, and checks that this actor's server has the blob at all. Four caches stand in
between, each coalescing concurrent evaluations of one key, and three admin calls purge them while requests run.
This project models that and proves what can be relied on.

`dafny verify dfyconfig.toml` checks all of it.

## How the model is built

**The protocol** (`Protocol.dfy`) is a state machine. Every section of the asynchronous code between two await
points is one atomic step of one request; purges visit the caches one atomic step at a time; the clock, evictions,
cancellations and the answers of the outside world are steps anyone may take at any time. The four caches are one
map with tagged keys: decisions by (did, cid), endpoints by did, blob data by cid alone, ownership by (cid, did).
A cache call hits, leads the evaluation of its key, or waits for its leader; data and ownership evaluations make a
nested call of the identity cache; the data evaluation writes the actor's ownership entry before its own.

Each state carries a history that no step's guard reads: a log of who answered what and when, the log position
every cache entry and request rests on, and the number of origin requests. The theorems are stated over it.
`Invariants.dfy`, `Preservation.dfy` and `Completion.dfy` prove one invariant of every reachable state;
`Guarantees.dfy`, `Purging.dfy`, `Flights.dfy`, `Progress.dfy`, `OriginCosts.dfy`, `Refusals.dfy`, `Vouchers.dfy` and
`MemoryBudget.dfy` draw the conclusions. `PurgeRaces.dfy` and `PurgeOverlaps.dfy` give the runs that show why a purge
must not be overlapped, `SharedFailures.dfy` one in which a failure is shared, and `Refinement.dfy` compares the cached
proxy with one that has no caches.

**The services and handlers** (`Services.dfy`) are the same code in the source's own form: classes whose methods
update their caches and return early. Each method is proved against a function in `Serving.dfy`; `Promises.dfy`
says what these functions mean. `SoloRuns.dfy` proves that a handler nobody disturbs is a run of the protocol, and
`Sessions.dfy` that any sequence of handlers and purges is, so the theorems about runs are theorems about the
methods.

**The pieces they use** are proved on their own: CID validation (`BlobCids.dfy`), media types (`Mimes.dfy`), the
capped download (`BodyStreams.dfy`), the checks on a complete body (`BlobRules.dfy`), the floating-point split of
the memory budget (`CacheSizes.dfy`) and the filter of private addresses (`AddressGuard.dfy`).

## What is assumed

- moka, which is not part of this model, is taken at its word: an expired entry is never returned; an entry may be
  evicted at any time; invalidating one cache is atomic; a running evaluation is not stopped by an invalidation;
  at most one evaluation of a key runs at a time; a value is stored and handed to all waiters at once; once
  maintenance has run, the weight of a cache is at most its capacity (used for the memory budget only).
- When an evaluation fails, any subset of its waiters shares the error and the others may take over. The comment at
  blob_service.rs:176-178 promises the second for blobs; safety holds for every mixture.
- The digest, the signature table of `infer`, the parsers of DIDs and CIDs and the length of an encoded CID are
  arbitrary functions or values. The digest is not assumed to be collision-free: statements about equal content say
  "or the digest has a collision". The multihash table holds sha2-256 and sha2-512.
- A request takes a step only while its processing timeout has not passed, and may be cancelled at any moment
  (timeout, disconnect or panic). A download that would outgrow the largest possible buffer panics.
- binary64 arithmetic rounds to nearest, ties to even (IEEE 754); the numbers in question are positive and far from
  overflow and underflow, so values are modelled as 53-bit integers times powers of two.
- The `is_*` predicates of Rust's address types are written out from their documentation.

## Where the code and its documentation differ

- dns.rs:64 calls its range `3fff` a documentation prefix. The bound written there, `0..=0x3fff` on the second
  segment, is a /18; the reserved block is 3fff::/20 (RFC 9637). The model follows the code.
- The lists in the comments at dns.rs:21-29 and dns.rs:43-53 leave out IPv4 multicast and the IPv6 documentation
  ranges, which the code does reject.
- cache.rs splits with floating-point numbers; `CacheSizes.SplitIsExact` shows that its underflow error cannot occur.
- blob_cid.rs:44-46 tests the version after the codec. The `cid` crate gives every version-0 CID the dag-pb codec,
  so the version error cannot occur.

## Model

| member | source | states |
|---|---|---|
| `Guarantees.ServingSafety` | crates/porxie/src/server/routes/blob.rs:53-201 | In every run, every blob served for (did, cid) had the policy's consent for exactly that pair (an Allowed answer, no policy client, or a query failed during the request with fail-open set); hashes to cid, fits the cap and is of its sniffed, allowed type; and did's own origin, at an endpoint resolved for did, answered success for cid, even if the bytes came from another actor's fetch |
| `Guarantees.AnswersWereGiven` | crates/porxie/src/blob_service.rs:188-294 | The history is not made up: every record was written by a step of the run that did just that; an origin's answer is the one to the endpoint the request had asked, and a policy failure is a query for that pair that failed, not a leader that was cancelled |
| `Guarantees.OneContentPerCid` | crates/porxie/src/server/routes/blob.rs:183-200 | Any two blobs served for one cid in a run have the same bytes and type, whichever origins, evictions, expiries and purges lay between, or the digest has a collision |
| `Guarantees.NeverUnsupported` | crates/porxie/src/blob_service.rs:254-263 | In no run is a request refused for an unsupported multihash, not even by sharing a leader's error |
| `Refinement.RefinesUncached` | crates/porxie/src/blob_service.rs:188-294 | For every served blob whose ownership rests on a download: the actor's own origin sent a body in that very evaluation, and on this body and the answers on record the same handler with empty caches grants the served blob, up to a collision |
| `Refinement.OtherwiseStatusOnly` | crates/porxie/src/blob_service.rs:334-361 | Otherwise ownership rests on an ownership evaluation of the very pair, in which no body was read: only the status was looked at |
| `Refinement.StatusIsEnough` | crates/porxie/src/server/routes/blob.rs:140-160 | That is where the two differ: a second actor whose origin answers success with other bytes is served the first actor's download, which a proxy without caches refuses for a CID mismatch |
| `Refinement.UncachedGrantsTheSame` | crates/porxie/src/blob_service.rs:188-294 | Whatever a proxy without caches grants under the CID of a served blob, in any world and for any actor, is that blob or a collision |
| `Vouchers.NoteHasBody` | crates/porxie/src/blob_service.rs:228-291 | Every note of ownership has behind it a body read from the actor's own origin in the same evaluation, and accepted |
| `Refusals.RefusalsAreJustified` | crates/porxie/src/server/routes/blob.rs:53-181 | Every refusal in every run: a Forbidden of at most policy TTL + T for the very pair is on record; or with fail-open off a policy query for it failed; or an evaluation of that blob, or of that ownership, broke, which the request led or had joined, broken by an origin's refusal or silence, a bad body or a failed resolution of the leader's actor; or the request was cancelled |
| `SharedFailures.BorrowedNotFound` | crates/porxie/src/blob_service.rs:176-178 | For every two actors and every blob: a run in which the first actor's origin says 404 and the second actor's request, which had joined the download, is refused with it without its own origin having been asked |
| `Guarantees.OnlyAnswersAreCached` | crates/porxie/src/policy_client.rs:150-175 | In every reachable state each entry of each cache is backed by a real answer for exactly its key: failures and fail-open passes are never cached, cached data hashes to its key, fits the cap and has its sniffed, allowed type; this includes states after a leader was cancelled between the ownership insert and the data insert |
| `Guarantees.SingleFlight` | crates/porxie/src/blob_service.rs:174-189 | A key has at most one leader, and a key under evaluation is absent from its cache (the ownership cache, with its second writer, aside) |
| `Guarantees.OneSuccessPerResidence` | crates/porxie/src/blob_service.rs:174-178 | Between two successful evaluations of a key (ownership keys aside) the key was evicted, expired or purged |
| `Guarantees.StalenessBound` | crates/porxie/src/server/mod.rs:76-101 | When a blob is served, the ownership answer is at most ownership TTL + T old, the resolution of the endpoint it came from at most ownership TTL + identity TTL + 2T, a policy answer at most policy TTL + 2T, whichever of the two writers refreshed the ownership entry |
| `Completion.StepKeeps` | crates/porxie/src/blob_service.rs:180-364 | Every step of every request, purge and the environment keeps the invariant of log, caches, running evaluations and requests |
| `Completion.RunInv` | crates/porxie/src/server/routes/blob.rs:53-201 | The invariant holds in every state of every run |
| `Purging.VisitFrame` | crates/porxie/src/server/routes/xrpc/dev_blooym/porxie/cache/purge_actor.rs:13-25 | A visit of a purge removes exactly the entries in scope from exactly one cache; purging an actor touches no other actor and no blob data, purging a blob touches no other blob and no endpoint |
| `Purging.VisitFreshIff` | crates/porxie/src/server/routes/xrpc/dev_blooym/porxie/cache/purge_actor.rs:13-25 | Exactly, for one visit of any purge before a request arrived: what the reply rests on in that cache is newer than the visit if and only if its evaluation was not running at the visit |
| `Purging.PurgeFreshIff` | crates/porxie/src/server/routes/xrpc/dev_blooym/porxie/cache/purge_blob.rs:36-42 | Exactly, for a whole purge: a reply to a request that arrived after it rests, in every cache visited, on evaluations begun after the visit if and only if none of them was running at that visit |
| `Purging.PurgeFreshness` | crates/porxie/src/server/routes/xrpc/dev_blooym/porxie/cache/purge_actor.rs:13-25 | Hence: if no evaluation that concerns a purge overlapped it, every blob served to a request that arrived after it rests on policy and ownership evaluations begun after the whole purge; so does the endpoint after a purge of the actor or of all, and the blob data after a purge of the blob or of all |
| `Purging.FinishedHasTrace` | crates/porxie/src/server/routes/xrpc/dev_blooym/porxie/cache/purge_all.rs:9-20 | A finished purge has visited its caches once each, in its order |
| `PurgeRaces.StaleOwnershipServed` | crates/porxie/src/server/routes/xrpc/dev_blooym/porxie/cache/purge_actor.rs:13-25 | With a policy client or without, for every purge and every genuine blob (positive TTLs): a run in which a download overlaps the purge, and a request that arrives after the purge is served on an origin answer older than the purge |
| `PurgeRaces.StaleDecisionServed` | crates/porxie/src/server/routes/xrpc/dev_blooym/porxie/cache/purge_actor.rs:13-17 | With a policy client (positive policy TTL): a run in which a policy query overlaps the purge, and a request that arrives after it is served on the decision of that query |
| `Flights.OpenIffInFlight` | crates/porxie/src/blob_service.rs:174-189 | In every reachable state the evaluations in flight are exactly those begun and not ended in the history |
| `Flights.WatchedPurgeIsFresh` | crates/porxie/src/server/routes/xrpc/dev_blooym/porxie/cache/purge_actor.rs:13-25 | Purge freshness in what can be watched: if at the first visit nothing that concerns the purge was in flight, and nothing was begun until the last, every blob served to a request that arrived later rests, in each visited cache, on evaluations begun after the purge |
| `PurgeOverlaps.OverlapCanBeServed` | crates/porxie/src/server/routes/xrpc/dev_blooym/porxie/cache/purge_actor.rs:13-17 | The converse for policy queries, from every reachable state and whoever else is active: a query in scope that can still be answered at the first visit can be the ground on which a request that arrives after the purge is served |
| `Progress.NoDeadlock` | crates/porxie/src/identity_service.rs:100-115 | While a request is unfinished, a request on its wait chain (at most: waiter, leader of data or ownership, leader of identity) has an enabled step, which is a cancellation only if its timeout has passed |
| `Progress.BoundedWork` | crates/porxie/src/blob_service.rs:174-198 | Once nothing new arrives, the steps of work still taken in any run are bounded by a measure of the state, whatever fails, expires or is evicted |
| `Progress.LeadsOncePerCall` | crates/porxie/src/blob_service.rs:176-178 | A request leads at most one evaluation per cache call, even if it takes over from failed or cancelled leaders |
| `Progress.OriginCost` | crates/porxie/src/blob_service.rs:207-339 | A request makes at most two requests to origins |
| `OriginCosts.ServedCost` | crates/porxie/src/blob_service.rs:207-339 | A served request has made exactly one origin request for the data evaluation it led, if any, plus one for the ownership evaluation it led, if any |
| `OriginCosts.SecondRequestIff` | crates/porxie/src/blob_service.rs:290-312 | A served request that led the data evaluation has made one or two; two exactly if the ownership entry it had noted was evicted, purged or found expired before it led the ownership evaluation |
| `OriginCosts.LedOnceCostsOne` | crates/porxie/src/server/routes/blob.rs:145-160 | A served request that led the data evaluation has made exactly one, if the entry it noted was neither evicted nor purged since and its time to live has not passed |
| `MemoryBudget.BudgetHolds` | crates/porxie/src/main.rs:287-314 | In every reachable settled state, cached blob bytes plus the weights of the other three caches are within the configured allocation, if the cap fits in 32 bits |
| `Services.PolicyClient.GetPolicy` | crates/porxie/src/policy_client.rs:123-178 | The result and the new cache are those of a get-or-compute call: a fresh entry is returned, a decision is stored, an error is not |
| `Services.IdentityService.PdsForDid` | crates/porxie/src/identity_service.rs:100-116 | As above for endpoints; only a URL whose host is a domain name is accepted and stored |
| `Services.BlobService.FetchBlob` | crates/porxie/src/blob_service.rs:180-296 | The result and the three caches it works on are those of `Serving.CallData`: which error each failure gives, the ownership noted exactly when the download is accepted, the data stored only then |
| `Services.BlobService.FetchBlobOwnership` | crates/porxie/src/blob_service.rs:302-364 | Likewise for `Serving.CallOwner` |
| `Services.ServerState.GetBlob` | crates/porxie/src/server/routes/blob.rs:18-202 | Response (status, error name, body, type) and all four caches are those of `Serving.ExchangeBlob`, for malformed requests, too |
| `Services.ServerState.GetBlobMetadata` | crates/porxie/src/server/routes/xrpc/dev_blooym/porxie/get_blob_metadata.rs:24-223 | Likewise for `Serving.ExchangeMetadata`, through the second copy of the stages and of the error table |
| `Services.ServerState.PurgeActor` | crates/porxie/src/server/routes/xrpc/dev_blooym/porxie/cache/purge_actor.rs:8-28 | Uninterrupted, it leaves the caches without the actor's decisions, endpoint and ownerships, and otherwise as they were |
| `Services.ServerState.PurgeBlob` | crates/porxie/src/server/routes/xrpc/dev_blooym/porxie/cache/purge_blob.rs:16-45 | Likewise for a blob's decisions, data and ownerships; a malformed CID changes nothing and is answered 422 |
| `Services.ServerState.PurgeAll` | crates/porxie/src/server/routes/xrpc/dev_blooym/porxie/cache/purge_all.rs:8-20 | Likewise for everything |
| `Serving.EndpointsAgree` | crates/porxie/src/server/routes/xrpc/dev_blooym/porxie/get_blob_metadata.rs:43-222 | From the same caches and answers getBlob and getBlobMetadata leave the same caches and agree on status and error; on success size and type are those of the body |
| `Serving.TablesAgree` | crates/porxie/src/server/routes/xrpc/dev_blooym/porxie/get_blob_metadata.rs:84-166 | The two error tables agree on every outcome, and the cast of the size to a signed number never wraps |
| `Promises.ObtainIff` | crates/porxie/src/blob_service.rs:206-293 | A data evaluation yields a blob exactly when the origin answers success with a body that is downloadable and genuine; the blob is then that body |
| `Promises.ColdServeIff` | crates/porxie/src/server/routes/blob.rs:53-201 | From empty caches a blob is served exactly when the policy lets it pass, the actor resolves to a domain, the origin answers success and the body is downloadable and genuine |
| `Promises.RepeatIsServed` | crates/porxie/src/blob_service.rs:302-312 | A served request repeated at once gets the same blob from the caches, whatever the outside would answer, and leaves them as they are |
| `Promises.FailOpenAsksAgain` | crates/porxie/src/server/routes/blob.rs:68-80 | After a failed policy query, passed or not, the next request for the pair gets whatever the policy service then answers |
| `Promises.NeverAnswersUnsupported` | crates/porxie/src/server/routes/blob.rs:100-104 | Neither endpoint ever answers 400 or names an unsupported CID |
| `SoloRuns.SoloPds` | crates/porxie/src/identity_service.rs:100-116 | An undisturbed call of the identity service is a path of the protocol, with the same result and caches |
| `SoloRuns.SoloPolicy` | crates/porxie/src/policy_client.rs:123-178 | Likewise for a policy call |
| `SoloRuns.SoloData` | crates/porxie/src/blob_service.rs:180-296 | Likewise for a data call with its nested identity call and the ownership it notes |
| `SoloRuns.SoloOwner` | crates/porxie/src/blob_service.rs:302-364 | Likewise for an ownership call |
| `SoloRuns.SoloServe` | crates/porxie/src/server/routes/blob.rs:53-201 | Likewise for a whole handler: the imperative handlers refine the protocol |
| `Sessions.SoloPurge` | crates/porxie/src/server/routes/xrpc/dev_blooym/porxie/cache/purge_blob.rs:36-42 | The visits of an uninterrupted purge together do to the caches what the purge handlers do |
| `Sessions.SessionIsARun` | crates/porxie/src/server/mod.rs:73-125 | Any sequence of requests, purges and pauses handled one after another from empty caches is a run of the protocol with the same caches and answers |
| `Sessions.SessionGrants` | crates/porxie/src/server/routes/blob.rs:183-200 | So in any such sequence what is granted under a CID is genuine and the same every time, up to a collision |
| `BlobCids.TryFromCid` | crates/porxie/src/types/blob_cid.rs:34-57 | A CID is accepted exactly if it is version 1, raw and sha2-256, and then unchanged; the version error never occurs |
| `BlobCids.CheckOfValidatedCid` | crates/porxie/src/blob_service.rs:254-272 | For a validated CID the multihash error is dead, and comparing the recomputed CID compares exactly the digests |
| `BlobRules.AcceptIff` | crates/porxie/src/blob_service.rs:254-293 | A body within the cap is accepted exactly if it makes a genuine blob, and which error it is otherwise |
| `BlobRules.GenuineIsUnique` | crates/porxie/src/blob_service.rs:254-293 | Two genuine blobs of one CID are equal or collide |
| `BlobRules.DownloadedFits` | crates/porxie/src/blob_service.rs:228-240 | No downloaded body exceeds the cap |
| `BodyStreams.BytesStreamCapped` | crates/porxie/src/networking/http.rs:35-75 | The loop, with 64-bit wrapping addition, computes the recursive download function that the next lemmas characterise |
| `BodyStreams.CappedIff` | crates/porxie/src/networking/http.rs:35-75 | It succeeds with b exactly if the announced size is absent or within the cap, no chunk fails and b is the concatenation, within the cap |
| `BodyStreams.CappedFailures` | crates/porxie/src/networking/http.rs:50-68 | Which error it is, for every cap: too large exactly if the announced size is, or the first error-free prefix over what cap and buffer allow is over the cap; the panic exactly if the announced size or that prefix is within the cap but more than a buffer holds; otherwise the transport error |
| `BodyStreams.ChunkingIndependence` | crates/porxie/src/networking/http.rs:64-70 | Two error-free chunkings of one body with one announced size give the same result |
| `BodyStreams.ChunkingMatters` | crates/porxie/src/networking/http.rs:64-70 | For each cap in the window that lemma excludes, two chunkings of one body that fail differently |
| `CacheSizes.RoundIsF64` | crates/porxie/src/cache.rs:20-22 | Adequacy of the rounding: it yields a 53-bit value |
| `CacheSizes.RoundIsNearest` | crates/porxie/src/cache.rs:20-22 | Adequacy of the rounding: no 53-bit value is nearer |
| `CacheSizes.TenthIsNearest` | crates/porxie/src/cache.rs:20 | Adequacy of the constant: no binary64 value is nearer to one tenth than the one used |
| `CacheSizes.SmallTenPercent` | crates/porxie/src/cache.rs:20-22 | Below ten times the cap on a share, the truncated floating-point product is the integer tenth |
| `CacheSizes.LargeTenPercent` | crates/porxie/src/cache.rs:20-22 | From there to the largest 64-bit number the cap applies |
| `CacheSizes.SplitIsExact` | crates/porxie/src/cache.rs:17-33 | For every non-zero 64-bit x the split succeeds, each small share is min(x / 10, 48,000,000), the shares sum to x and blob gets at least 70% |
| `AddressGuard.V4IsCidr` | crates/porxie/src/networking/dns.rs:30-40 | The octet and mask tests hold exactly if the 32-bit number lies in the union of the prefix blocks |
| `AddressGuard.V6IsCidr` | crates/porxie/src/networking/dns.rs:54-68 | Likewise for 128 bits; on IPv4-mapped addresses (section 2.5.5.2 of RFC 4291) the verdict is that of the IPv4 test |
| `AddressGuard.MappedIff` | crates/porxie/src/networking/dns.rs:55-57 | An address unwraps to IPv4 exactly inside the mapped block, and to its low 32 bits |
| `AddressGuard.FilterIsSublist` | crates/porxie/src/networking/dns.rs:78-82 | Filtering yields the order-preserving sublist of exactly the elements to keep |
| `AddressGuard.ResolveIff` | crates/porxie/src/networking/dns.rs:72-92 | Resolution yields the order-preserving sublist of exactly the safe addresses and fails exactly if there are none |
| `Mimes.LooksLikeSvgIff` | crates/porxie-mediautil/src/mime.rs:20-26 | The window search says SVG exactly if the buffer starts with the SVG marker, or with the XML marker and has the SVG marker wholly inside its first min(len, 256) bytes |
| `Mimes.SvgVerdictNeedsOnlyPrefix` | crates/porxie-mediautil/src/mime.rs:20-32 | That verdict depends on the first 256 bytes only |
| `Mimes.IsMimeAllowed` | crates/porxie-mediautil/src/mime.rs:40-65 | The loop with its early returns decides whether some entry admits the type |
| `Mimes.AllowlistIsASet` | crates/porxie-mediautil/src/mime.rs:40-65 | The verdict does not depend on the order of the list and is monotone in it |

## Left out

- Purging.PurgeFreshness: assumes that no evaluation that concerns the purge overlaps it; without that it is false, as the two runs of `PurgeRaces` show, and `Purging.PurgeFreshIff` gives the exact condition.
- BodyStreams.ChunkingIndependence: excludes caps strictly between `isize::MAX` and twice that, where `BodyStreams.ChunkingMatters` shows it false.
- Refinement.RefinesUncached: only for ownership that rests on a download; for the rest the refinement is false, as `Refinement.StatusIsEnough` shows, and `Refinement.OtherwiseStatusOnly` says what was looked at.
- PurgeOverlaps.OverlapCanBeServed: for policy queries; for downloads `PurgeRaces.StaleOwnershipServed` gives the run from an empty server only.
- Guarantees.SingleFlight: an ownership key may be in the cache while it is evaluated, because a data evaluation writes it, too.
- Guarantees.OneSuccessPerResidence: leaves out ownership keys for the same reason.
- Progress.BoundedWork: bounds the work but assumes no fair scheduler, so it does not say when a step is taken; the timeout is a limit on the steps of a request, not a step forced by the clock.
- Services.ServerState.GetBlobMetadata: the image and video attributes of the answer and their casts are not modelled.
- The protocol works on values, not on shared objects: its caches are maps of a state, since its subject is interleaving; updates in place are the subject of `Services`, whose methods run undisturbed.
- Expiry is by a clock of natural numbers; clock adjustments and failed allocations below the largest buffer size are not modelled.
- HTTP clients, TLS, redirects, compression, DNS lookup and JSON: only the possible outcomes of an exchange appear.
- The insides of moka (admission, maintenance, locking), of SHA-256, of `infer` and of the DID, CID and URL parsers.
- Generated lexicon code, admin authentication, response headers, routing, the panic and trace layers, index and health routes, the command line, sockets and shutdown.
- The compatibility route of getBlob, which converts its parameters and calls the modelled handler.
