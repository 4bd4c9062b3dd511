/** What every reachable state of the protocol satisfies. */
module Invariants {
  import opened BlobCids
  import opened BlobRules
  import opened Protocol

  // ---------- the log ----------

  /** The evaluation begun at `since` ends here. */
  predicate IsEndOf(e: Event, since: Index) {
    (e.Stored? || e.Errored? || e.Dropped?) && e.since == since
  }

  /** The event takes the key out of its cache. */
  predicate Takes(e: Event, k: Key) {
    || ((e.Removed? || e.Expired?) && e.key == k)
    || PurgesKey(e, k)
  }

  predicate PurgesKey(e: Event, k: Key) {
    e.Purged? && e.cache == CacheOf(k) && InScope(e.scope, k)
  }

  predicate Puts(e: Event, k: Key) {
    (e.Stored? || e.Noted?) && e.key == k
  }

  /** The evaluation begun at `since` had not ended by position `n`. */
  predicate Unended(log: seq<Record>, since: Index, n: nat) {
    forall j :: 0 <= j < n && j < |log| ==> !IsEndOf(log[j].what, since)
  }

  /** The evaluation begun at `since` was still open at every purge of `k` before position `n`. */
  predicate Outlives(log: seq<Record>, since: Index, n: nat, k: Key) {
    forall p :: 0 <= p < n && p < |log| && PurgesKey(log[p].what, k) ==> Unended(log, since, p)
  }

  predicate BeganAt(log: seq<Record>, since: Index, k: Key, did: Did) {
    since < |log| && log[since].what.Began? && log[since].what.key == k && log[since].what.did == did
  }

  /** The answer `i` is a success of `did`'s origin for `cid`, from the endpoint resolved at `pds`. */
  predicate OriginAt(log: seq<Record>, i: Index, did: Did, cid: BlobCid) {
    && i < |log| && log[i].what.OriginSaid? && log[i].what.did == did && log[i].what.cid == cid
    && log[i].what.pds < i
  }

  predicate PdsAt(log: seq<Record>, i: Index, did: Did, url: Url) {
    i < |log| && log[i].what.PdsSaid? && log[i].what.did == did && log[i].what.url == url
  }

  predicate PolicyAt(log: seq<Record>, i: Index, did: Did, cid: BlobCid, d: Decision) {
    && i < |log| && log[i].what.PolicySaid? && log[i].what.did == did && log[i].what.cid == cid
    && log[i].what.decision == d
  }

  /** The evaluation a logged answer belongs to. */
  function Since(log: seq<Record>, i: Index): Index {
    if i < |log| && (log[i].what.PolicySaid? || log[i].what.PdsSaid? || log[i].what.OriginSaid?) then log[i].what.since
    else 0
  }

  function TimeOf(log: seq<Record>, i: Index): Time {
    if i < |log| then log[i].time else 0
  }

  /** When the endpoint behind an origin answer was resolved. */
  function PdsTime(log: seq<Record>, i: Index): Time {
    if i < |log| && log[i].what.OriginSaid? then TimeOf(log, log[i].what.pds) else 0
  }

  /** Every record refers backwards, to a record of the right kind. */
  predicate RecordOk(log: seq<Record>, i: nat)
    requires i < |log|
  {
    match log[i].what
    case Began(k, _, did) => !k.DataKey? ==> k.did == did
    case PolicySaid(did, cid, _, since) => since < i && BeganAt(log, since, PolicyKey(did, cid), did)
    case PdsSaid(did, _, since) => since < i && BeganAt(log, since, PdsKey(did), did)
    case OriginSaid(did, cid, url, pds, since) =>
      && since < i && (BeganAt(log, since, DataKey(cid), did) || BeganAt(log, since, OwnerKey(cid, did), did))
      && pds < i && PdsAt(log, pds, did, url)
      && Outlives(log, Since(log, pds), since, PdsKey(did))
    case Noted(k, since) =>
      since < i && k.OwnerKey? && BeganAt(log, since, DataKey(k.cid), k.did)
    case Stored(k, since) => since < i && log[since].what.Began? && log[since].what.key == k
    case Errored(k, since) => since < i && log[since].what.Began? && log[since].what.key == k
    case Dropped(k, since) => since < i && log[since].what.Began? && log[since].what.key == k
    case _ => true
  }

  predicate LogOk(log: seq<Record>, now: Time) {
    && (forall i: nat :: i < |log| ==> RecordOk(log, i))
    && (forall i: nat :: i < |log| ==> log[i].time <= now)
  }

  // ---------- cache entries ----------

  /** The value of key `k` rests on the answer `ev`. */
  predicate Backs(c: Config, log: seq<Record>, k: Key, v: Value, ev: Index) {
    match k
    case PolicyKey(did, cid) => v.Ruling? && PolicyAt(log, ev, did, cid, v.decision)
    case PdsKey(did) => v.Endpoint? && PdsAt(log, ev, did, v.url)
    case DataKey(cid) =>
      v.Content? && Genuine(c.rules, cid, v.blob) && ev < |log| && log[ev].what.OriginSaid?
      && OriginAt(log, ev, log[ev].what.did, cid)
    case OwnerKey(cid, did) => v == Owned && OriginAt(log, ev, did, cid)
  }

  predicate EntryOk(c: Config, log: seq<Record>, now: Time, k: Key, e: Entry) {
    && e.ev < e.ins < |log|
    && Backs(c, log, k, e.value, e.ev)
    && Unended(log, Since(log, e.ev), e.ins)
    && (forall p :: 0 <= p < |log| && PurgesKey(log[p].what, k) ==> p < e.ins)
    && (forall p :: 0 <= p < |log| && Puts(log[p].what, k) ==> log[p].time <= e.at)
    && e.at <= e.used <= now
    && e.at <= TimeOf(log, e.ev) + c.timeout
    && (k.OwnerKey? ==> e.at <= PdsTime(log, e.ev) + c.identityTtl + 2 * c.timeout)
  }

  // ---------- requests ----------

  predicate PassOk(c: Config, log: seq<Record>, q: Req, pass: Pass) {
    var k := PolicyKey(q.did, q.cid);
    match pass
    case NoClient => !c.hasPolicy
    case AllowedAt(ev) =>
      && c.hasPolicy && PolicyAt(log, ev, q.did, q.cid, Allowed)
      && Outlives(log, Since(log, ev), q.born, k)
      && q.start <= TimeOf(log, ev) + c.policyTtl + c.timeout
    case FailedOpen(ev) =>
      && c.hasPolicy && c.failOpen
      && q.born <= ev < |log| && log[ev].what.Errored? && log[ev].what.key == k
      && Unended(log, log[ev].what.since, ev)
  }

  predicate DataOk(c: Config, log: seq<Record>, q: Req, blob: Blob, dataEv: Index) {
    && Backs(c, log, DataKey(q.cid), Content(blob), dataEv)
    && Outlives(log, Since(log, dataEv), q.born, DataKey(q.cid))
  }

  predicate OwnerOk(c: Config, log: seq<Record>, q: Req, ownerEv: Index) {
    && OriginAt(log, ownerEv, q.did, q.cid)
    && Outlives(log, Since(log, ownerEv), q.born, OwnerKey(q.cid, q.did))
  }

  predicate StageOk(c: Config, log: seq<Record>, r: ReqId, q: Req, stage: Stage, point: Point) {
    match stage
    case PolicyCheck => q.origin == 0 && (!point.Ask? ==> c.hasPolicy)
    case DataFetch(pass) => PassOk(c, log, q, pass) && q.origin <= 1 && (!point.Run? || InPds(point) ==> q.origin == 0)
    case OwnerCheck(pass, blob, dataEv) =>
      && PassOk(c, log, q, pass) && DataOk(c, log, q, blob, dataEv) && q.origin <= 2
      && (!point.Run? || InPds(point) ==> q.origin <= 1)
  }

  predicate Open(log: seq<Record>, since: Index, k: Key, r: ReqId, did: Did) {
    since < |log| && log[since].what == Began(k, r, did) && Unended(log, since, |log|)
  }

  /** An origin answer obtained by the evaluation begun at `since`. */
  predicate Fetched(c: Config, log: seq<Record>, q: Req, since: Index, ev: Index) {
    && OriginAt(log, ev, q.did, q.cid) && Since(log, ev) == since
    && q.start <= TimeOf(log, ev)
    && q.start <= PdsTime(log, ev) + c.identityTtl + c.timeout
  }

  /** The errors an evaluation of `k` can end with. An unsupported multihash is none of them. */
  predicate FaultFits(k: Key, fault: Fault) {
    match k
    case PolicyKey(_, _) => fault.PolicyFault?
    case PdsKey(_) => fault.PdsFault?
    case DataKey(_) => fault.DataFault? && fault.download != DownloadError.CidUnsupportedMultihash
    case OwnerKey(_, _) => fault.OwnerFault?
  }

  predicate JobOk(c: Config, log: seq<Record>, r: ReqId, q: Req, stage: Stage, since: Index, job: Job) {
    match job
    case Query => stage.PolicyCheck?
    case AskPds => !stage.PolicyCheck?
    case WaitPds => !stage.PolicyCheck?
    case QueryPds(pdsSince) => !stage.PolicyCheck? && since < pdsSince && Open(log, pdsSince, PdsKey(q.did), r, q.did)
    case KeepPds(url, ev, pdsSince) =>
      && !stage.PolicyCheck? && since < pdsSince && Open(log, pdsSince, PdsKey(q.did), r, q.did)
      && PdsAt(log, ev, q.did, url) && Since(log, ev) == pdsSince && q.start <= TimeOf(log, ev)
    case Fetch(url, pds) =>
      && !stage.PolicyCheck? && PdsAt(log, pds, q.did, url)
      && Outlives(log, Since(log, pds), since, PdsKey(q.did))
      && q.start <= TimeOf(log, pds) + c.identityTtl + c.timeout
    case Body(ev) => stage.DataFetch? && Fetched(c, log, q, since, ev)
    case Check(bytes, ev) => stage.DataFetch? && |bytes| <= c.rules.maxSize && Fetched(c, log, q, since, ev)
    case Keep(v, ev) =>
      && Backs(c, log, StageKey(q, stage), v, ev) && Since(log, ev) == since && q.start <= TimeOf(log, ev)
      && (!stage.PolicyCheck? ==> Fetched(c, log, q, since, ev))
    case Broken(fault) => !stage.PolicyCheck? && FaultFits(StageKey(q, stage), fault)
  }

  predicate PointOk(c: Config, log: seq<Record>, r: ReqId, q: Req, stage: Stage, point: Point) {
    match point
    case Ask => true
    case Wait => true
    case Run(since, job) =>
      && Open(log, since, StageKey(q, stage), r, q.did) && q.born <= since
      && JobOk(c, log, r, q, stage, since, job)
  }

  predicate ReplyOk(c: Config, log: seq<Record>, now: Time, q: Req, reply: Reply) {
    match reply
    case Served(blob, pass, dataEv, ownerEv, time) =>
      && PassOk(c, log, q, pass) && DataOk(c, log, q, blob, dataEv) && OwnerOk(c, log, q, ownerEv)
      && q.start <= time <= now && time <= q.start + c.timeout
      && time <= TimeOf(log, ownerEv) + c.ownershipTtl + c.timeout
      && time <= PdsTime(log, ownerEv) + c.ownershipTtl + c.identityTtl + 2 * c.timeout
    case Refused(refusal) => refusal != DownloadFailed(DownloadError.CidUnsupportedMultihash)
  }

  predicate ReqOk(c: Config, log: seq<Record>, now: Time, r: ReqId, q: Req) {
    && q.start <= now && q.born <= |log| && q.origin <= 2
    && match q.status
       case Active(stage, point) => StageOk(c, log, r, q, stage, point) && PointOk(c, log, r, q, stage, point)
       case Done(reply) => ReplyOk(c, log, now, q, reply)
  }

  // ---------- the state ----------

  predicate CacheInv(c: Config, s: State) {
    forall k :: k in s.cache ==> EntryOk(c, s.log, s.now, k, s.cache[k])
  }

  /** Single flight: a key has at most one leader, and outside the ownership cache (which a data evaluation
      also writes) a key being evaluated is absent from its cache. */
  ghost predicate FlightInv(s: State) {
    && (forall k :: k in s.flight ==> s.flight[k] in s.reqs && Leads(s.reqs[s.flight[k]], k))
    && (forall r, k :: r in s.reqs && Leads(s.reqs[r], k) ==> k in s.flight && s.flight[k] == r)
    && (forall k :: k in s.flight && !k.OwnerKey? ==> k !in s.cache)
  }

  predicate ReqInv(c: Config, s: State) {
    forall r :: r in s.reqs ==> ReqOk(c, s.log, s.now, r, s.reqs[r])
  }

  /** The key was taken out strictly between two positions. */
  predicate TakenBetween(log: seq<Record>, i: int, n: nat, k: Key) {
    exists j: nat :: i < j < n && j < |log| && Takes(log[j].what, k)
  }

  /** What was put into a cache is there or was taken out since; and two successful evaluations of one key
      have a removal between them. */
  ghost predicate HistoryInv(s: State) {
    && (forall i: nat, k: Key :: i < |s.log| && Puts(s.log[i].what, k)
          ==> k in s.cache || TakenBetween(s.log, i, |s.log|, k))
    && (forall i: nat, n: nat, k: Key :: i < n < |s.log| && !k.OwnerKey?
          && Puts(s.log[i].what, k) && Puts(s.log[n].what, k)
          ==> TakenBetween(s.log, i, n, k))
  }

  ghost predicate Inv(c: Config, s: State) {
    LogOk(s.log, s.now) && CacheInv(c, s) && FlightInv(s) && ReqInv(c, s) && HistoryInv(s)
  }

  lemma InitInv(c: Config, s: State)
    requires Init(s)
    ensures Inv(c, s)
  {
  }

  // ---------- growing logs ----------

  lemma UnendedGrows(log: seq<Record>, more: seq<Record>, since: Index, n: nat)
    requires log <= more && n <= |log|
    ensures Unended(more, since, n) <==> Unended(log, since, n)
  {
    forall j | 0 <= j < |log|
      ensures log[j] == more[j]
    {
    }
  }

  lemma OutlivesGrows(log: seq<Record>, more: seq<Record>, since: Index, n: nat, k: Key)
    requires log <= more && n <= |log|
    ensures Outlives(more, since, n, k) <==> Outlives(log, since, n, k)
  {
    forall p: nat | p < n
      ensures log[p] == more[p]
      ensures Unended(more, since, p) <==> Unended(log, since, p)
    {
      UnendedGrows(log, more, since, p);
    }
  }

  lemma RecordGrows(log: seq<Record>, more: seq<Record>, i: nat)
    requires log <= more && i < |log| && RecordOk(log, i)
    ensures RecordOk(more, i)
  {
    assert more[i] == log[i];
    if log[i].what.OriginSaid? {
      var o := log[i].what;
      OutlivesGrows(log, more, Since(log, o.pds), o.since, PdsKey(o.did));
    }
  }

  /** A log stays well formed when well-formed records of the present are appended. */
  lemma LogGrows(log: seq<Record>, now: Time, more: seq<Record>, later: Time)
    requires LogOk(log, now) && log <= more && now <= later
    requires forall i: nat :: |log| <= i < |more| ==> RecordOk(more, i) && more[i].time <= later
    ensures LogOk(more, later)
  {
    forall i: nat | i < |more|
      ensures RecordOk(more, i) && more[i].time <= later
    {
      if i < |log| {
        RecordGrows(log, more, i);
        assert more[i] == log[i];
      }
    }
  }

  lemma EntryGrows(c: Config, log: seq<Record>, now: Time, more: seq<Record>, later: Time, k: Key, e: Entry)
    requires EntryOk(c, log, now, k, e) && log <= more && now <= later
    requires forall p: nat :: |log| <= p < |more| ==> !PurgesKey(more[p].what, k) && !Puts(more[p].what, k)
    ensures EntryOk(c, more, later, k, e)
  {
    UnendedGrows(log, more, Since(log, e.ev), e.ins);
    forall p: nat | p < |log|
      ensures log[p] == more[p]
    {
    }
  }

  /** Nothing in the new part of the log ends an evaluation this request is running. */
  predicate Undisturbed(log: seq<Record>, more: seq<Record>, q: Req) {
    && (q.status.Active? && q.status.point.Run? ==>
          forall j: nat :: |log| <= j < |more| ==> !IsEndOf(more[j].what, q.status.point.since))
    && (q.status.Active? && q.status.point.Run? && (q.status.point.job.QueryPds? || q.status.point.job.KeepPds?) ==>
          forall j: nat :: |log| <= j < |more| ==> !IsEndOf(more[j].what, q.status.point.job.pdsSince))
  }

  lemma PassGrows(c: Config, log: seq<Record>, more: seq<Record>, q: Req, pass: Pass)
    requires PassOk(c, log, q, pass) && log <= more && q.born <= |log|
    ensures PassOk(c, more, q, pass)
  {
    match pass
    case NoClient =>
    case AllowedAt(ev) => OutlivesGrows(log, more, Since(log, ev), q.born, PolicyKey(q.did, q.cid));
    case FailedOpen(ev) => UnendedGrows(log, more, log[ev].what.since, ev);
  }

  lemma DataGrows(c: Config, log: seq<Record>, more: seq<Record>, q: Req, blob: Blob, dataEv: Index)
    requires DataOk(c, log, q, blob, dataEv) && log <= more && q.born <= |log|
    ensures DataOk(c, more, q, blob, dataEv)
  {
    OutlivesGrows(log, more, Since(log, dataEv), q.born, DataKey(q.cid));
  }

  lemma StageGrows(c: Config, log: seq<Record>, more: seq<Record>, r: ReqId, q: Req, stage: Stage, point: Point)
    requires StageOk(c, log, r, q, stage, point) && log <= more && q.born <= |log|
    ensures StageOk(c, more, r, q, stage, point)
  {
    match stage
    case PolicyCheck =>
    case DataFetch(pass) => PassGrows(c, log, more, q, pass);
    case OwnerCheck(pass, blob, dataEv) =>
      PassGrows(c, log, more, q, pass);
      DataGrows(c, log, more, q, blob, dataEv);
  }

  lemma OpenGrows(log: seq<Record>, more: seq<Record>, since: Index, k: Key, r: ReqId, did: Did)
    requires Open(log, since, k, r, did) && log <= more
    requires forall j: nat :: |log| <= j < |more| ==> !IsEndOf(more[j].what, since)
    ensures Open(more, since, k, r, did)
  {
    forall j: nat | j < |more|
      ensures !IsEndOf(more[j].what, since)
    {
      if j < |log| {
        assert more[j] == log[j];
      }
    }
  }

  lemma PointGrows(c: Config, log: seq<Record>, more: seq<Record>, r: ReqId, q: Req)
    requires q.status.Active? && PointOk(c, log, r, q, q.status.stage, q.status.point) && log <= more
    requires Undisturbed(log, more, q)
    ensures PointOk(c, more, r, q, q.status.stage, q.status.point)
  {
    var stage := q.status.stage;
    if q.status.point.Run? {
      var since, job := q.status.point.since, q.status.point.job;
      OpenGrows(log, more, since, StageKey(q, stage), r, q.did);
      match job
      case QueryPds(pdsSince) => OpenGrows(log, more, pdsSince, PdsKey(q.did), r, q.did);
      case KeepPds(_, _, pdsSince) => OpenGrows(log, more, pdsSince, PdsKey(q.did), r, q.did);
      case Fetch(_, pds) => OutlivesGrows(log, more, Since(log, pds), since, PdsKey(q.did));
      case _ =>
    }
  }

  lemma ReqGrows(c: Config, log: seq<Record>, now: Time, more: seq<Record>, later: Time, r: ReqId, q: Req)
    requires ReqOk(c, log, now, r, q) && log <= more && now <= later && Undisturbed(log, more, q)
    ensures ReqOk(c, more, later, r, q)
  {
    match q.status
    case Active(stage, point) =>
      StageGrows(c, log, more, r, q, stage, point);
      PointGrows(c, log, more, r, q);
    case Done(Served(blob, pass, dataEv, ownerEv, _)) =>
      PassGrows(c, log, more, q, pass);
      DataGrows(c, log, more, q, blob, dataEv);
      OutlivesGrows(log, more, Since(log, ownerEv), q.born, OwnerKey(q.cid, q.did));
    case Done(Refused(_)) =>
  }
}
