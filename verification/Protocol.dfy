/** The serving and caching protocol as a state machine: every section of the asynchronous code between two
    await points is one atomic step.

    The four moka caches are one map with tagged keys. A cache call of a request looks its key up, and on a miss
    either leads the evaluation of the key or waits for the request that leads it. An evaluation that succeeds
    stores its value and hands it to everyone waiting; one that fails hands its error to any subset of the
    waiters, and the others may take over; one whose request is cancelled (timeout, disconnect, panic) just ends.
    Entries may be evicted at any time and expire by the clock.

    Three parts of a state are history only, read by no guard: the log, which records who answered what and when;
    the log positions kept in entries and requests, which say on which answer a value rests; and the count of
    origin requests. */
module Protocol {
  import opened Wrappers
  import opened BlobCids
  import opened BlobRules
  import BodyStreams

  type Did = string
  type Url = string
  type Time = nat
  type ReqId = nat
  type JobId = nat

  /** A position in the log. */
  type Index = nat

  datatype Decision = Allowed | Forbidden

  datatype Config = Config(
    rules: Rules,
    hasPolicy: bool,
    failOpen: bool,
    policyTtl: nat,
    identityTtl: nat,
    ownershipTtl: nat,
    dataTti: nat,
    timeout: nat)

  // ---------- caches ----------

  datatype CacheName = PolicyCache | IdentityCache | DataCache | OwnershipCache

  datatype Key =
    | PolicyKey(did: Did, cid: BlobCid)
    | PdsKey(did: Did)
    | DataKey(cid: BlobCid)
    | OwnerKey(cid: BlobCid, did: Did)

  function CacheOf(k: Key): CacheName {
    match k
    case PolicyKey(_, _) => PolicyCache
    case PdsKey(_) => IdentityCache
    case DataKey(_) => DataCache
    case OwnerKey(_, _) => OwnershipCache
  }

  datatype Value = Ruling(decision: Decision) | Endpoint(url: Url) | Content(blob: Blob) | Owned

  /** `at`: insertion; `used`: last access; `ev`: the answer the value rests on; `ins`: the insertion record. */
  datatype Entry = Entry(value: Value, at: Time, used: Time, ev: Index, ins: Index)

  /** Time to live for three caches, time to idle for the blob data. */
  predicate Live(c: Config, k: Key, e: Entry, now: Time) {
    match k
    case PolicyKey(_, _) => now < e.at + c.policyTtl
    case PdsKey(_) => now < e.at + c.identityTtl
    case OwnerKey(_, _) => now < e.at + c.ownershipTtl
    case DataKey(_) => now < e.used + c.dataTti
  }

  predicate Hits(c: Config, s: State, k: Key) {
    k in s.cache && Live(c, k, s.cache[k], s.now)
  }

  // ---------- purges ----------

  datatype Scope = OfActor(did: Did) | OfBlob(cid: BlobCid) | OfAll

  predicate InScope(scope: Scope, k: Key) {
    match scope
    case OfActor(did) => !k.DataKey? && k.did == did
    case OfBlob(cid) => !k.PdsKey? && k.cid == cid
    case OfAll => true
  }

  /** The caches a purge visits, in order; each visit is atomic, the purge is not. */
  function Visits(c: Config, scope: Scope): seq<CacheName> {
    (if c.hasPolicy then [PolicyCache] else [])
    + match scope
      case OfActor(_) => [IdentityCache, OwnershipCache]
      case OfBlob(_) => [DataCache, OwnershipCache]
      case OfAll => [IdentityCache, DataCache, OwnershipCache]
  }

  datatype Purge = Purge(scope: Scope, visited: nat)

  // ---------- history ----------

  /** `Errored` is an evaluation that returned an error, `Dropped` one whose leader was cancelled; `Removed` is an
      eviction, `Expired` an entry found too old by a lookup that then leads. */
  datatype Event =
    | Began(key: Key, leader: ReqId, did: Did)
    | PolicySaid(did: Did, cid: BlobCid, decision: Decision, since: Index)
    | PdsSaid(did: Did, url: Url, since: Index)
    | OriginSaid(did: Did, cid: BlobCid, url: Url, pds: Index, since: Index)
    | Noted(key: Key, since: Index)
    | Stored(key: Key, since: Index)
    | Errored(key: Key, since: Index)
    | Dropped(key: Key, since: Index)
    | Removed(key: Key)
    | Expired(key: Key)
    | Purged(cache: CacheName, scope: Scope, job: JobId)

  datatype Record = Record(time: Time, what: Event)

  // ---------- requests ----------

  /** Why a request got past the policy check. */
  datatype Pass = NoClient | AllowedAt(ev: Index) | FailedOpen(ev: Index)

  datatype Fault =
    | PolicyFault
    | PdsFault
    | DataFault(download: DownloadError)
    | OwnerFault(ownership: OwnershipError)

  /** Where a running evaluation is. */
  datatype Job =
    | Query                                              // policy service asked
    | AskPds                                             // about to call the identity service
    | WaitPds                                            // another request resolves the same actor
    | QueryPds(pdsSince: Index)                          // resolving
    | KeepPds(url: Url, ev: Index, pdsSince: Index)      // resolved, about to be stored
    | Fetch(url: Url, pds: Index)                        // origin asked
    | Body(ev: Index)                                    // success status received, body streaming
    | Check(bytes: BodyStreams.Buffer, ev: Index)        // body complete, digest being computed
    | Keep(value: Value, ev: Index)                      // value computed, about to be stored
    | Broken(fault: Fault)                               // about to return an error

  /** Where a cache call of a handler is. */
  datatype Point = Ask | Wait | Run(since: Index, job: Job)

  /** The handler's current cache call and what it has gathered. */
  datatype Stage =
    | PolicyCheck
    | DataFetch(pass: Pass)
    | OwnerCheck(pass: Pass, blob: Blob, dataEv: Index)

  datatype Refusal =
    | PolicyForbids
    | PolicyUnavailable
    | DownloadFailed(download: DownloadError)
    | OwnershipFailed(ownership: OwnershipError)
    | Aborted

  datatype Reply =
    | Served(blob: Blob, pass: Pass, dataEv: Index, ownerEv: Index, time: Time)
    | Refused(refusal: Refusal)

  datatype Status = Active(stage: Stage, point: Point) | Done(reply: Reply)

  datatype Req = Req(did: Did, cid: BlobCid, start: Time, born: Index, origin: nat, status: Status)

  datatype State = State(
    now: Time,
    log: seq<Record>,
    cache: map<Key, Entry>,
    flight: map<Key, ReqId>,
    reqs: map<ReqId, Req>,
    purges: map<JobId, Purge>)

  function StageKey(q: Req, stage: Stage): Key {
    match stage
    case PolicyCheck => PolicyKey(q.did, q.cid)
    case DataFetch(_) => DataKey(q.cid)
    case OwnerCheck(_, _, _) => OwnerKey(q.cid, q.did)
  }

  predicate InPds(point: Point) {
    point.Run? && (point.job.AskPds? || point.job.WaitPds? || point.job.QueryPds? || point.job.KeepPds?)
  }

  /** The key of the innermost cache call of an active request. */
  function Target(q: Req): Key
    requires q.status.Active?
  {
    if InPds(q.status.point) then PdsKey(q.did) else StageKey(q, q.status.stage)
  }

  predicate Asks(q: Req) {
    && q.status.Active?
    && (q.status.point.Ask? || (q.status.point.Run? && q.status.point.job.AskPds?))
  }

  predicate Waiting(q: Req) {
    && q.status.Active?
    && (q.status.point.Wait? || (q.status.point.Run? && q.status.point.job.WaitPds?))
  }

  predicate WaitsFor(q: Req, k: Key) {
    Waiting(q) && Target(q) == k
  }

  predicate Leads(q: Req, k: Key) {
    && q.status.Active? && q.status.point.Run?
    && (|| k == StageKey(q, q.status.stage)
        || ((q.status.point.job.QueryPds? || q.status.point.job.KeepPds?) && k == PdsKey(q.did)))
  }

  /** The continuation of a request whose innermost cache call returns `v`. */
  function Deliver(q: Req, v: Value, ev: Index, now: Time): Req
    requires q.status.Active?
  {
    var st, pt := q.status.stage, q.status.point;
    if InPds(pt) then
      if v.Endpoint? then q.(status := Active(st, Run(pt.since, Fetch(v.url, ev))), origin := q.origin + 1) else q
    else
      match st
      case PolicyCheck =>
        if v == Ruling(Allowed) then q.(status := Active(DataFetch(AllowedAt(ev)), Ask))
        else q.(status := Done(Refused(PolicyForbids)))
      case DataFetch(pass) =>
        if v.Content? then q.(status := Active(OwnerCheck(pass, v.blob, ev), Ask)) else q
      case OwnerCheck(pass, blob, dataEv) =>
        q.(status := Done(Served(blob, pass, dataEv, ev, now)))
  }

  /** The continuation of a request whose innermost cache call returns an error. */
  function Reject(c: Config, q: Req, fault: Fault, ev: Index): Req
    requires q.status.Active?
  {
    var st, pt := q.status.stage, q.status.point;
    if InPds(pt) then
      var outer := if st.OwnerCheck? then OwnerFault(OwnerResolutionFailure) else DataFault(ResolutionFailure);
      q.(status := Active(st, Run(pt.since, Broken(outer))))
    else
      match st
      case PolicyCheck =>
        if c.failOpen then q.(status := Active(DataFetch(FailedOpen(ev)), Ask))
        else q.(status := Done(Refused(PolicyUnavailable)))
      case DataFetch(_) =>
        q.(status := Done(Refused(if fault.DataFault? then DownloadFailed(fault.download) else Aborted)))
      case OwnerCheck(_, _, _) =>
        q.(status := Done(Refused(if fault.OwnerFault? then OwnershipFailed(fault.ownership) else Aborted)))
  }

  // ---------- steps ----------

  datatype Step =
    | Arrive(r: ReqId, did: Did, cid: BlobCid)
    | SkipPolicy(r: ReqId)
    | Hit(r: ReqId)
    | Join(r: ReqId)
    | Lead(r: ReqId)
    | PolicyReply(r: ReqId, decision: Decision)
    | PdsReply(r: ReqId, url: Url)
    | OriginReply(r: ReqId, answer: OriginAnswer)
    | BodyRead(r: ReqId, declared: Option<BodyStreams.U64>, chunks: seq<BodyStreams.Chunk>)
    | Verify(r: ReqId)
    | Store(r: ReqId)
    | Break(r: ReqId, sharers: set<ReqId>)
    | Cancel(r: ReqId)
    | Tick
    | Drop(k: Key)
    | StartPurge(j: JobId, scope: Scope)
    | VisitCache(j: JobId)

  /** A step of request `r` may be taken: it is active and its processing timeout has not passed. */
  predicate Runs(c: Config, s: State, r: ReqId) {
    r in s.reqs && s.reqs[r].status.Active? && s.now <= s.reqs[r].start + c.timeout
  }

  /** The request is at a job of its own evaluation. */
  predicate AtJob(c: Config, s: State, r: ReqId) {
    Runs(c, s, r) && s.reqs[r].status.point.Run?
  }

  function JobOf(s: State, r: ReqId): Job
    requires r in s.reqs && s.reqs[r].status.Active? && s.reqs[r].status.point.Run?
  {
    s.reqs[r].status.point.job
  }

  /** A lookup is due: the call is new, or its key lost its leader while it waited. With no policy client
      there is no policy call. */
  predicate Looks(c: Config, s: State, r: ReqId) {
    && Runs(c, s, r)
    && (s.reqs[r].status.stage.PolicyCheck? ==> c.hasPolicy)
    && (Asks(s.reqs[r]) || (Waiting(s.reqs[r]) && Target(s.reqs[r]) !in s.flight))
  }

  predicate CanSkip(c: Config, s: State, r: ReqId) {
    Runs(c, s, r) && !c.hasPolicy && s.reqs[r].status == Active(PolicyCheck, Ask)
  }

  predicate CanHit(c: Config, s: State, r: ReqId) {
    Looks(c, s, r) && Hits(c, s, Target(s.reqs[r]))
  }

  predicate CanJoin(c: Config, s: State, r: ReqId) {
    Looks(c, s, r) && Asks(s.reqs[r]) && !Hits(c, s, Target(s.reqs[r])) && Target(s.reqs[r]) in s.flight
  }

  predicate CanLead(c: Config, s: State, r: ReqId) {
    Looks(c, s, r) && !Hits(c, s, Target(s.reqs[r])) && Target(s.reqs[r]) !in s.flight
  }

  predicate CanReply(c: Config, s: State, r: ReqId) {
    AtJob(c, s, r) && JobOf(s, r).Query?
  }

  predicate CanPdsReply(c: Config, s: State, r: ReqId) {
    AtJob(c, s, r) && JobOf(s, r).QueryPds?
  }

  predicate CanOriginReply(c: Config, s: State, r: ReqId) {
    AtJob(c, s, r) && JobOf(s, r).Fetch?
  }

  predicate CanBodyRead(c: Config, s: State, r: ReqId,
                        declared: Option<BodyStreams.U64>, chunks: seq<BodyStreams.Chunk>)
  {
    AtJob(c, s, r) && JobOf(s, r).Body? && !Panics(c.rules, declared, chunks)
  }

  predicate CanVerify(c: Config, s: State, r: ReqId) {
    AtJob(c, s, r) && JobOf(s, r).Check?
  }

  predicate CanStore(c: Config, s: State, r: ReqId) {
    AtJob(c, s, r) && (JobOf(s, r).Keep? || JobOf(s, r).KeepPds?)
  }

  predicate CanBreak(c: Config, s: State, r: ReqId, sharers: set<ReqId>) {
    && AtJob(c, s, r) && (JobOf(s, r).Query? || JobOf(s, r).QueryPds? || JobOf(s, r).Broken?)
    && (forall w :: w in sharers ==> Runs(c, s, w) && WaitsFor(s.reqs[w], Target(s.reqs[r])))
  }

  predicate CanCancel(s: State, r: ReqId) {
    r in s.reqs && s.reqs[r].status.Active?
  }

  predicate CanVisit(c: Config, s: State, j: JobId) {
    j in s.purges && s.purges[j].visited < |Visits(c, s.purges[j].scope)|
  }

  predicate Enabled(c: Config, s: State, step: Step) {
    match step
    case Arrive(r, _, _) => r !in s.reqs
    case SkipPolicy(r) => CanSkip(c, s, r)
    case Hit(r) => CanHit(c, s, r)
    case Join(r) => CanJoin(c, s, r)
    case Lead(r) => CanLead(c, s, r)
    case PolicyReply(r, _) => CanReply(c, s, r)
    case PdsReply(r, _) => CanPdsReply(c, s, r)
    case OriginReply(r, _) => CanOriginReply(c, s, r)
    case BodyRead(r, declared, chunks) => CanBodyRead(c, s, r, declared, chunks)
    case Verify(r) => CanVerify(c, s, r)
    case Store(r) => CanStore(c, s, r)
    case Break(r, sharers) => CanBreak(c, s, r, sharers)
    case Cancel(r) => CanCancel(s, r)
    case Tick => true
    case Drop(k) => k in s.cache
    case StartPurge(j, _) => j !in s.purges
    case VisitCache(j) => CanVisit(c, s, j)
  }

  function Logged(s: State, what: Event): seq<Record> {
    s.log + [Record(s.now, what)]
  }

  function WithStatus(s: State, r: ReqId, status: Status): map<ReqId, Req>
    requires r in s.reqs
  {
    s.reqs[r := s.reqs[r].(status := status)]
  }

  /** The same evaluation, at another job. */
  function WithJob(s: State, r: ReqId, job: Job): map<ReqId, Req>
    requires r in s.reqs && s.reqs[r].status.Active? && s.reqs[r].status.point.Run?
  {
    var q := s.reqs[r];
    s.reqs[r := q.(status := Active(q.status.stage, Run(q.status.point.since, job)))]
  }

  function Without(m: map<Key, Entry>, k: Key): map<Key, Entry> {
    map x | x in m && x != k :: m[x]
  }

  function DoSkip(c: Config, s: State, r: ReqId): State
    requires CanSkip(c, s, r)
  {
    s.(reqs := WithStatus(s, r, Active(DataFetch(NoClient), Ask)))
  }

  function DoHit(c: Config, s: State, r: ReqId): State
    requires CanHit(c, s, r)
  {
    var q := s.reqs[r];
    var k := Target(q);
    var e := s.cache[k];
    s.(cache := s.cache[k := e.(used := s.now)], reqs := s.reqs[r := Deliver(q, e.value, e.ev, s.now)])
  }

  function DoJoin(c: Config, s: State, r: ReqId): State
    requires CanJoin(c, s, r)
  {
    var q := s.reqs[r];
    s.(reqs := if InPds(q.status.point) then WithJob(s, r, WaitPds)
               else WithStatus(s, r, Active(q.status.stage, Wait)))
  }

  /** The request at the start of the evaluation of its target, begun at `since`. */
  function Led(q: Req, since: Index): Req
    requires Asks(q) || Waiting(q)
  {
    var st, pt := q.status.stage, q.status.point;
    q.(status := Active(st,
      if InPds(pt) then Run(pt.since, QueryPds(since))
      else Run(since, if st.PolicyCheck? then Query else AskPds)))
  }

  /** Start evaluating a key; an expired entry of it is gone from here on. */
  function DoLead(c: Config, s: State, r: ReqId): State
    requires CanLead(c, s, r)
  {
    var q := s.reqs[r];
    var k := Target(q);
    var log := if k in s.cache then Logged(s, Expired(k)) else s.log;
    State(s.now, log + [Record(s.now, Began(k, r, q.did))], Without(s.cache, k), s.flight[k := r],
          s.reqs[r := Led(q, |log|)], s.purges)
  }

  function DoPolicyReply(c: Config, s: State, r: ReqId, decision: Decision): State
    requires CanReply(c, s, r)
  {
    var q := s.reqs[r];
    s.(log := Logged(s, PolicySaid(q.did, q.cid, decision, q.status.point.since)),
       reqs := WithJob(s, r, Keep(Ruling(decision), |s.log|)))
  }

  function DoPdsReply(c: Config, s: State, r: ReqId, url: Url): State
    requires CanPdsReply(c, s, r)
  {
    var q := s.reqs[r];
    var pdsSince := JobOf(s, r).pdsSince;
    s.(log := Logged(s, PdsSaid(q.did, url, pdsSince)), reqs := WithJob(s, r, KeepPds(url, |s.log|, pdsSince)))
  }

  /** An ownership evaluation only looks at the status; a data evaluation goes on to the body. */
  function DoOriginReply(c: Config, s: State, r: ReqId, answer: OriginAnswer): State
    requires CanOriginReply(c, s, r)
  {
    var q := s.reqs[r];
    var job := JobOf(s, r);
    if answer == Ok then
      s.(log := Logged(s, OriginSaid(q.did, q.cid, job.url, job.pds, q.status.point.since)),
         reqs := WithJob(s, r, if q.status.stage.OwnerCheck? then Keep(Owned, |s.log|) else Body(|s.log|)))
    else
      s.(reqs := WithJob(s, r, Broken(
           if q.status.stage.OwnerCheck? then OwnerFault(OwnershipErrorOf(answer))
           else DataFault(DownloadErrorOf(answer)))))
  }

  function DoBodyRead(c: Config, s: State, r: ReqId,
                      declared: Option<BodyStreams.U64>, chunks: seq<BodyStreams.Chunk>): State
    requires CanBodyRead(c, s, r, declared, chunks)
  {
    s.(reqs := WithJob(s, r,
         match Downloaded(c.rules, declared, chunks)
         case Success(bytes) => Check(bytes, JobOf(s, r).ev)
         case Failure(e) => Broken(DataFault(e))))
  }

  /** The digest, the sniffing and the allowlist; on success the actor's ownership is noted at once, before
      the data itself is stored. */
  function DoVerify(c: Config, s: State, r: ReqId): State
    requires CanVerify(c, s, r)
  {
    var q := s.reqs[r];
    var job := JobOf(s, r);
    match Accept(c.rules, q.cid, job.bytes)
    case Failure(e) => s.(reqs := WithJob(s, r, Broken(DataFault(e))))
    case Success(blob) =>
      var k := OwnerKey(q.cid, q.did);
      s.(log := Logged(s, Noted(k, q.status.point.since)),
         cache := s.cache[k := Entry(Owned, s.now, s.now, job.ev, |s.log|)],
         reqs := WithJob(s, r, Keep(Content(blob), job.ev)))
  }

  /** Everyone handed the value when the evaluation of `k` led by `r` succeeds. */
  predicate Receives(c: Config, s: State, r: ReqId, k: Key, w: ReqId) {
    Runs(c, s, w) && (w == r || WaitsFor(s.reqs[w], k))
  }

  function StoredValue(job: Job): Value
    requires job.Keep? || job.KeepPds?
  {
    if job.Keep? then job.value else Endpoint(job.url)
  }

  function StoredSince(q: Req): Index
    requires q.status.Active? && q.status.point.Run?
  {
    if q.status.point.job.KeepPds? then q.status.point.job.pdsSince else q.status.point.since
  }

  function DoStore(c: Config, s: State, r: ReqId): State
    requires CanStore(c, s, r)
  {
    var q := s.reqs[r];
    var k := Target(q);
    var job := JobOf(s, r);
    var v := StoredValue(job);
    State(s.now, Logged(s, Stored(k, StoredSince(q))),
          s.cache[k := Entry(v, s.now, s.now, job.ev, |s.log|)], s.flight - {k},
          map w | w in s.reqs :: if Receives(c, s, r, k, w) then Deliver(s.reqs[w], v, job.ev, s.now) else s.reqs[w],
          s.purges)
  }

  function BrokenSince(q: Req): Index
    requires q.status.Active? && q.status.point.Run?
  {
    if q.status.point.job.QueryPds? then q.status.point.job.pdsSince else q.status.point.since
  }

  function FaultOf(job: Job): Fault {
    match job
    case Query => PolicyFault
    case Broken(fault) => fault
    case _ => PdsFault
  }

  function DoBreak(c: Config, s: State, r: ReqId, sharers: set<ReqId>): State
    requires CanBreak(c, s, r, sharers)
  {
    var q := s.reqs[r];
    var k := Target(q);
    var fault := FaultOf(JobOf(s, r));
    State(s.now, Logged(s, Errored(k, BrokenSince(q))), s.cache, s.flight - {k},
          map w | w in s.reqs ::
            if w == r || w in sharers then Reject(c, s.reqs[w], fault, |s.log|) else s.reqs[w],
          s.purges)
  }

  /** The evaluations a request leads, innermost last. */
  function Ends(q: Req): seq<Event> {
    if q.status.Active? && q.status.point.Run? then
      var pt := q.status.point;
      [Dropped(StageKey(q, q.status.stage), pt.since)]
      + (if pt.job.QueryPds? || pt.job.KeepPds? then [Dropped(PdsKey(q.did), pt.job.pdsSince)] else [])
    else []
  }

  function Stamp(now: Time, events: seq<Event>): seq<Record> {
    seq(|events|, i requires 0 <= i < |events| => Record(now, events[i]))
  }

  function DoCancel(c: Config, s: State, r: ReqId): State
    requires CanCancel(s, r)
  {
    s.(log := s.log + Stamp(s.now, Ends(s.reqs[r])),
       flight := map k | k in s.flight && s.flight[k] != r :: s.flight[k],
       reqs := WithStatus(s, r, Done(Refused(Aborted))))
  }

  function DoArrive(s: State, r: ReqId, did: Did, cid: BlobCid): State {
    s.(reqs := s.reqs[r := Req(did, cid, s.now, |s.log|, 0, Active(PolicyCheck, Ask))])
  }

  /** Eviction, or the cache's own removal of an expired entry. */
  function DoDrop(s: State, k: Key): State {
    s.(log := Logged(s, Removed(k)), cache := Without(s.cache, k))
  }

  function DoVisit(c: Config, s: State, j: JobId): State
    requires CanVisit(c, s, j)
  {
    var p := s.purges[j];
    var name := Visits(c, p.scope)[p.visited];
    s.(log := Logged(s, Purged(name, p.scope, j)),
       cache := map k | k in s.cache && !(CacheOf(k) == name && InScope(p.scope, k)) :: s.cache[k],
       purges := s.purges[j := p.(visited := p.visited + 1)])
  }

  function Apply(c: Config, s: State, step: Step): State
    requires Enabled(c, s, step)
  {
    match step
    case Arrive(r, did, cid) => DoArrive(s, r, did, cid)
    case SkipPolicy(r) => DoSkip(c, s, r)
    case Hit(r) => DoHit(c, s, r)
    case Join(r) => DoJoin(c, s, r)
    case Lead(r) => DoLead(c, s, r)
    case PolicyReply(r, decision) => DoPolicyReply(c, s, r, decision)
    case PdsReply(r, url) => DoPdsReply(c, s, r, url)
    case OriginReply(r, answer) => DoOriginReply(c, s, r, answer)
    case BodyRead(r, declared, chunks) => DoBodyRead(c, s, r, declared, chunks)
    case Verify(r) => DoVerify(c, s, r)
    case Store(r) => DoStore(c, s, r)
    case Break(r, sharers) => DoBreak(c, s, r, sharers)
    case Cancel(r) => DoCancel(c, s, r)
    case Tick => s.(now := s.now + 1)
    case Drop(k) => DoDrop(s, k)
    case StartPurge(j, scope) => s.(purges := s.purges[j := Purge(scope, 0)])
    case VisitCache(j) => DoVisit(c, s, j)
  }

  predicate Init(s: State) {
    s.log == [] && s.cache == map[] && s.flight == map[] && s.reqs == map[] && s.purges == map[]
  }

  /** A run: its states, and the step taken between each two. */
  ghost predicate IsRun(c: Config, states: seq<State>, steps: seq<Step>) {
    && |states| == |steps| + 1
    && Init(states[0])
    && forall i :: 0 <= i < |steps| ==>
         Enabled(c, states[i], steps[i]) && states[i + 1] == Apply(c, states[i], steps[i])
  }
}
