/** What a request costs the origins: one request for each evaluation it led to its answer. */
module OriginCosts {
  import opened BlobCids
  import opened BlobRules
  import opened Protocol
  import opened Invariants
  import opened Preservation
  import opened Completion
  import opened Guarantees
  import opened Progress

  /** Record `n` notes the ownership of `did` on behalf of a data evaluation led by `r`. */
  predicate NotedBy(log: seq<Record>, n: nat, r: ReqId, did: Did, cid: BlobCid) {
    && n < |log| && log[n].what.Noted? && log[n].what.key == OwnerKey(cid, did)
    && log[n].what.since < n && log[log[n].what.since].what == Began(DataKey(cid), r, did)
  }

  /** Record `b` begins an ownership evaluation led by `r`. */
  predicate OwnerBegun(log: seq<Record>, b: nat, r: ReqId, did: Did, cid: BlobCid) {
    b < |log| && log[b].what == Began(OwnerKey(cid, did), r, did)
  }

  /** The request led a data evaluation up to the note of its actor's ownership. */
  ghost predicate LedData(log: seq<Record>, r: ReqId, did: Did, cid: BlobCid) {
    exists n: nat :: NotedBy(log, n, r, did, cid)
  }

  /** The request led an ownership evaluation. */
  ghost predicate LedOwner(log: seq<Record>, r: ReqId, did: Did, cid: BlobCid) {
    exists b: nat :: OwnerBegun(log, b, r, did, cid)
  }

  function One(b: bool): nat {
    if b then 1 else 0
  }

  predicate PastFetch(job: Job) {
    job.Fetch? || job.Body? || job.Check? || job.Keep?
  }

  /** What a call has spent by now, on top of what was spent before it. */
  predicate Spent(point: Point, origin: nat, before: nat) {
    if point.Run? && PastFetch(point.job) then origin == before + 1
    else if point.Run? && point.job.Broken? then before <= origin <= before + 1
    else origin == before
  }

  /** The count of a request, in terms of the evaluations it is on record to have led. */
  predicate Accounted(q: Req, data: bool, owner: bool) {
    match q.status
    case Active(PolicyCheck, point) =>
      !data && !owner && q.origin == 0 && (point.Run? ==> point.job.Query? || point.job.Keep?)
    case Active(DataFetch(_), point) =>
      !owner && (data <==> point.Run? && point.job.Keep?) && Spent(point, q.origin, 0)
    case Active(OwnerCheck(_, _, _), point) => (owner <==> point.Run?) && Spent(point, q.origin, One(data))
    case Done(Served(_, _, _, _, _)) => q.origin == One(data) + One(owner)
    case Done(Refused(_)) => true
  }

  ghost predicate CostOk(log: seq<Record>, r: ReqId, q: Req) {
    Accounted(q, LedData(log, r, q.did, q.cid), LedOwner(log, r, q.did, q.cid))
  }

  /** Every recorded leader is a request that has arrived. */
  predicate LeadersArrived(s: State) {
    forall i: nat :: i < |s.log| && s.log[i].what.Began? ==> s.log[i].what.leader in s.reqs
  }

  ghost predicate CostInv(s: State) {
    LeadersArrived(s) && forall r :: r in s.reqs ==> CostOk(s.log, r, s.reqs[r])
  }

  // ---------- what a step adds to the record of a request ----------

  lemma NotedGrows(c: Config, s: State, t: State, n: nat, w: ReqId, did: Did, cid: BlobCid)
    requires LogOk(s.log, s.now) && s.log <= t.log && n < |s.log|
    ensures NotedBy(t.log, n, w, did, cid) <==> NotedBy(s.log, n, w, did, cid)
  {
    assert t.log[n] == s.log[n] && RecordOk(s.log, n);
  }

  /** A note is made by the leader of the data evaluation, while it fetches. */
  lemma NoterIsLeader(c: Config, s: State, step: Step, n: nat, w: ReqId, did: Did, cid: BlobCid)
    requires Inv(c, s) && Enabled(c, s, step) && |s.log| <= n
    requires NotedBy(Apply(c, s, step).log, n, w, did, cid)
    ensures step == Verify(w) && CanVerify(c, s, w) && s.reqs[w].status.stage.DataFetch?
    ensures Accept(c.rules, s.reqs[w].cid, JobOf(s, w).bytes).Success?
  {
    hide Enabled, Apply, LogOk, CacheInv, FlightInv, HistoryInv, StageOk, ReplyOk, Unended, Accept;
    var t := Apply(c, s, step);
    StepLog(c, s, step);
    assert Caused(c, step, s, t.log[n].what);
    VerifyIs(c, s, step);
    assert ReqOk(c, s.log, s.now, step.r, s.reqs[step.r]);
    var since := s.reqs[step.r].status.point.since;
    assert t.log[since] == s.log[since];
  }

  lemma VerifyIs(c: Config, s: State, step: Step)
    requires Enabled(c, s, step) && step.Verify?
    ensures CanVerify(c, s, step.r) && Apply(c, s, step) == DoVerify(c, s, step.r)
    ensures Accept(c.rules, s.reqs[step.r].cid, JobOf(s, step.r).bytes).Failure? ==>
              Apply(c, s, step).log == s.log
  {
    hide Accept;
  }

  lemma DataRecordSame(c: Config, s: State, step: Step, w: ReqId, did: Did, cid: BlobCid)
    requires Inv(c, s) && Enabled(c, s, step) && step != Verify(w)
    ensures LedData(Apply(c, s, step).log, w, did, cid) <==> LedData(s.log, w, did, cid)
  {
    hide Enabled, Apply, LogOk, CacheInv, FlightInv, HistoryInv, ReqInv, Caused, NotedBy;
    var t := Apply(c, s, step);
    StepLog(c, s, step);
    forall n: nat
      ensures NotedBy(t.log, n, w, did, cid) <==> NotedBy(s.log, n, w, did, cid)
    {
      if n < |s.log| {
        NotedGrows(c, s, t, n, w, did, cid);
      } else {
        NotedInside(s.log, n, w, did, cid);
        if NotedBy(t.log, n, w, did, cid) {
          NoterIsLeader(c, s, step, n, w, did, cid);
        }
      }
    }
  }

  lemma NotedInside(log: seq<Record>, n: nat, w: ReqId, did: Did, cid: BlobCid)
    ensures NotedBy(log, n, w, did, cid) ==> n < |log|
  {
  }

  lemma OwnerRecordSame(c: Config, s: State, step: Step, w: ReqId, did: Did, cid: BlobCid)
    requires Enabled(c, s, step) && !(step == Lead(w) && Calls(s, w, OwnerKey(cid, did)))
    ensures LedOwner(Apply(c, s, step).log, w, did, cid) <==> LedOwner(s.log, w, did, cid)
  {
    hide Enabled, Apply, Calls;
    var t := Apply(c, s, step);
    StepLog(c, s, step);
    forall b: nat
      ensures OwnerBegun(t.log, b, w, did, cid) <==> OwnerBegun(s.log, b, w, did, cid)
    {
      if b < |s.log| {
        assert t.log[b] == s.log[b];
      } else if b < |t.log| {
        assert Caused(c, step, s, t.log[b].what);
      }
    }
  }

  // ---------- the continuations ----------

  lemma DeliverAccounted(q: Req, v: Value, ev: Index, now: Time, data: bool, owner: bool)
    requires q.status.Active? && Accounted(q, data, owner)
    requires Asks(q) || Waiting(q) || q.status.point.job.Keep? || q.status.point.job.KeepPds?
    requires InPds(q.status.point) ==> v.Endpoint?
    requires !InPds(q.status.point) && q.status.stage.DataFetch? ==> v.Content?
    ensures Accounted(Deliver(q, v, ev, now), data, owner)
  {
  }

  lemma RejectAccounted(c: Config, q: Req, fault: Fault, ev: Index, data: bool, owner: bool)
    requires q.status.Active? && Accounted(q, data, owner)
    requires Waiting(q) || (q.status.point.Run? && !q.status.point.job.AskPds? && !q.status.point.job.Keep?)
    ensures Accounted(Reject(c, q, fault, ev), data, owner)
  {
  }

  lemma LedAccounted(q: Req, since: Index, data: bool, owner: bool)
    requires (Asks(q) || Waiting(q)) && Accounted(q, data, owner)
    ensures Accounted(Led(q, since), data, owner || Target(q).OwnerKey?)
  {
  }

  // ---------- every step keeps the account ----------

  /** The requests that a step moves, with the rest of the record unchanged. */
  lemma StoreAccounted(c: Config, s: State, r: ReqId, w: ReqId, data: bool, owner: bool)
    requires ReqInv(c, s) && CanStore(c, s, r) && w in s.reqs && Accounted(s.reqs[w], data, owner)
    ensures Accounted(DoStore(c, s, r).reqs[w], data, owner)
  {
    hide ReqOk, Deliver, Accounted, Backs, Usable;
    var k, job := Target(s.reqs[r]), JobOf(s, r);
    StoreUsable(c, s, r);
    UsableKind(c, s.log, s.now, k, StoredValue(job), job.ev);
    if Receives(c, s, r, k, w) {
      DeliverAccounted(s.reqs[w], StoredValue(job), job.ev, s.now, data, owner);
    }
  }

  lemma HitAccounted(c: Config, s: State, r: ReqId, data: bool, owner: bool)
    requires CacheInv(c, s) && CanHit(c, s, r) && Accounted(s.reqs[r], data, owner)
    ensures Accounted(DoHit(c, s, r).reqs[r], data, owner)
  {
    hide EntryOk, Deliver, Accounted, Usable;
    var k := Target(s.reqs[r]);
    HitIsUsable(c, s, k);
    UsableKind(c, s.log, s.now, k, s.cache[k].value, s.cache[k].ev);
    DeliverAccounted(s.reqs[r], s.cache[k].value, s.cache[k].ev, s.now, data, owner);
  }

  lemma BreakAccounted(c: Config, s: State, r: ReqId, sharers: set<ReqId>, w: ReqId, data: bool, owner: bool)
    requires CanBreak(c, s, r, sharers) && w in s.reqs && Accounted(s.reqs[w], data, owner)
    ensures Accounted(DoBreak(c, s, r, sharers).reqs[w], data, owner)
  {
    hide Reject, Accounted;
    if w == r || w in sharers {
      RejectAccounted(c, s.reqs[w], FaultOf(JobOf(s, r)), |s.log|, data, owner);
    }
  }

  /** A job done: the next one has spent what the last had. */
  lemma JobAccounted(c: Config, s: State, t: State, r: ReqId, job: Job, data: bool, owner: bool)
    requires AtJob(c, s, r) && t.reqs == WithJob(s, r, job) && Accounted(s.reqs[r], data, owner)
    requires match JobOf(s, r)
             case Query => job.Keep? && s.reqs[r].status.stage.PolicyCheck?
             case QueryPds(_) => job.KeepPds?
             case Fetch(_, _) => job.Body? || job.Broken? || (job.Keep? && s.reqs[r].status.stage.OwnerCheck?)
             case Body(_) => job.Check? || job.Broken?
             case _ => false
    ensures r in t.reqs && Accounted(t.reqs[r], data, owner)
  {
  }

  lemma JobStage(c: Config, s: State, r: ReqId)
    requires ReqInv(c, s) && AtJob(c, s, r)
    ensures JobOf(s, r).Query? ==> s.reqs[r].status.stage.PolicyCheck?
    ensures JobOf(s, r).Check? || JobOf(s, r).Body? ==> s.reqs[r].status.stage.DataFetch?
  {
    hide PassOk, DataOk, ReplyOk, Unended;
    assert ReqOk(c, s.log, s.now, r, s.reqs[r]);
  }

  lemma ReplyAccounted(c: Config, s: State, step: Step, data: bool, owner: bool)
    requires step.PolicyReply? || step.PdsReply? || step.OriginReply? || step.BodyRead?
    requires ReqInv(c, s) && Enabled(c, s, step) && Accounted(s.reqs[step.r], data, owner)
    ensures step.r in Apply(c, s, step).reqs && Accounted(Apply(c, s, step).reqs[step.r], data, owner)
  {
    hide ReqInv, Downloaded, Panics, Logged, Accounted;
    var t := Apply(c, s, step);
    JobStage(c, s, step.r);
    JobAccounted(c, s, t, step.r, t.reqs[step.r].status.point.job, data, owner);
  }

  lemma VerifyAccounted(c: Config, s: State, r: ReqId, data: bool, owner: bool)
    requires ReqInv(c, s) && CanVerify(c, s, r) && Accounted(s.reqs[r], data, owner)
    ensures var noted := Accept(c.rules, s.reqs[r].cid, JobOf(s, r).bytes).Success?;
            Accounted(DoVerify(c, s, r).reqs[r], data || noted, owner)
  {
    hide PassOk, DataOk, ReplyOk, Unended, Accept, Logged;
    assert ReqOk(c, s.log, s.now, r, s.reqs[r]);
  }

  lemma CallAccounted(c: Config, s: State, step: Step, data: bool, owner: bool)
    requires step.SkipPolicy? || step.Join? || step.Cancel?
    requires Enabled(c, s, step) && Accounted(s.reqs[step.r], data, owner)
    ensures step.r in Apply(c, s, step).reqs && Accounted(Apply(c, s, step).reqs[step.r], data, owner)
  {
    hide Hits, Ends, Stamp;
  }

  /** A step that leaves the record of a request as it is keeps its account. */
  lemma RecordSameAccounted(c: Config, s: State, step: Step, w: ReqId, data: bool, owner: bool)
    requires Inv(c, s) && Enabled(c, s, step) && w in s.reqs && Accounted(s.reqs[w], data, owner)
    requires step != Verify(w) && step != Lead(w)
    ensures w in Apply(c, s, step).reqs && Accounted(Apply(c, s, step).reqs[w], data, owner)
  {
    hide Accounted, LogOk, CacheInv, FlightInv, HistoryInv, ReqInv, DoHit, DoStore, DoBreak, Enabled, Apply;
    if IsWork(step) && !step.VisitCache? {
      if Actor(step) != w && !step.Store? && !step.Break? {
        OthersStay(c, s, step, w);
      } else {
        MoverAccounted(c, s, step, w, data, owner);
      }
    } else {
      OutsideKeepsReqs(c, s, step, w);
    }
  }

  lemma OthersStay(c: Config, s: State, step: Step, w: ReqId)
    requires Enabled(c, s, step) && IsWork(step) && !step.VisitCache? && !step.Store? && !step.Break?
    requires w in s.reqs && w != Actor(step)
    ensures w in Apply(c, s, step).reqs && Apply(c, s, step).reqs[w] == s.reqs[w]
  {
    hide Deliver, Led, Hits, Accept, Downloaded, Panics, Ends, Stamp, Logged, Without;
  }

  lemma MoverAccounted(c: Config, s: State, step: Step, w: ReqId, data: bool, owner: bool)
    requires Inv(c, s) && Enabled(c, s, step) && w in s.reqs && Accounted(s.reqs[w], data, owner)
    requires IsWork(step) && !step.VisitCache? && !step.Verify? && !step.Lead?
    requires Actor(step) == w || step.Store? || step.Break?
    ensures w in Apply(c, s, step).reqs && Accounted(Apply(c, s, step).reqs[w], data, owner)
  {
    hide Accounted, LogOk, CacheInv, FlightInv, HistoryInv, ReqInv, Deliver, Reject, DoPolicyReply, DoPdsReply,
      DoOriginReply, DoBodyRead, DoSkip, DoJoin, DoCancel;
    match step
    case Hit(r) => HitAccounted(c, s, r, data, owner);
    case Store(r) => StoreAccounted(c, s, r, w, data, owner);
    case Break(r, sharers) => BreakAccounted(c, s, r, sharers, w, data, owner);
    case PolicyReply(_, _) => ReplyAccounted(c, s, step, data, owner);
    case PdsReply(_, _) => ReplyAccounted(c, s, step, data, owner);
    case OriginReply(_, _) => ReplyAccounted(c, s, step, data, owner);
    case BodyRead(_, _, _) => ReplyAccounted(c, s, step, data, owner);
    case _ => CallAccounted(c, s, step, data, owner);
  }

  lemma VerifyCost(c: Config, s: State, r: ReqId)
    requires Inv(c, s) && CanVerify(c, s, r) && CostOk(s.log, r, s.reqs[r])
    ensures var t := DoVerify(c, s, r); r in t.reqs && CostOk(t.log, r, t.reqs[r])
  {
    hide LogOk, CacheInv, FlightInv, HistoryInv, ReqInv, Accept, Accounted, OwnerBegun;
    var q := s.reqs[r];
    var noted := Accept(c.rules, q.cid, JobOf(s, r).bytes).Success?;
    VerifyAccounted(c, s, r, LedData(s.log, r, q.did, q.cid), LedOwner(s.log, r, q.did, q.cid));
    VerifyRecord(c, s, r);
    OwnerRecordSame(c, s, Verify(r), r, q.did, q.cid);
  }

  lemma VerifyRecord(c: Config, s: State, r: ReqId)
    requires Inv(c, s) && CanVerify(c, s, r)
    ensures var q := s.reqs[r]; var noted := Accept(c.rules, q.cid, JobOf(s, r).bytes).Success?;
            LedData(DoVerify(c, s, r).log, r, q.did, q.cid) <==> LedData(s.log, r, q.did, q.cid) || noted
    ensures var q := s.reqs[r]; var t := DoVerify(c, s, r); t.reqs[r].did == q.did && t.reqs[r].cid == q.cid
  {
    hide LogOk, CacheInv, FlightInv, HistoryInv, ReqInv, Accept, NotedBy;
    var t, q := DoVerify(c, s, r), s.reqs[r];
    if Accept(c.rules, q.cid, JobOf(s, r).bytes).Success? {
      VerifyNotes(c, s, r);
    }
    forall n: nat | n < |s.log|
      ensures NotedBy(t.log, n, r, q.did, q.cid) <==> NotedBy(s.log, n, r, q.did, q.cid)
    {
      NotedGrows(c, s, t, n, r, q.did, q.cid);
    }
    forall n: nat
      ensures NotedBy(s.log, n, r, q.did, q.cid) ==> n < |s.log|
      ensures NotedBy(t.log, n, r, q.did, q.cid) ==> n < |t.log|
    {
      NotedInside(s.log, n, r, q.did, q.cid);
      NotedInside(t.log, n, r, q.did, q.cid);
    }
  }

  lemma VerifyNotes(c: Config, s: State, r: ReqId)
    requires ReqInv(c, s) && CanVerify(c, s, r)
    requires Accept(c.rules, s.reqs[r].cid, JobOf(s, r).bytes).Success?
    ensures NotedBy(DoVerify(c, s, r).log, |s.log|, r, s.reqs[r].did, s.reqs[r].cid)
  {
    hide Accept, StageOk, ReplyOk, Unended;
    assert ReqOk(c, s.log, s.now, r, s.reqs[r]);
  }

  lemma LeadCost(c: Config, s: State, r: ReqId)
    requires Inv(c, s) && CanLead(c, s, r) && CostOk(s.log, r, s.reqs[r])
    ensures var t := DoLead(c, s, r); r in t.reqs && CostOk(t.log, r, t.reqs[r])
  {
    hide LogOk, CacheInv, FlightInv, HistoryInv, ReqInv, Accounted, NotedBy, Hits, Without, Led;
    var t, q := DoLead(c, s, r), s.reqs[r];
    LedAccounted(q, |t.log| - 1, LedData(s.log, r, q.did, q.cid), LedOwner(s.log, r, q.did, q.cid));
    DataRecordSame(c, s, Lead(r), r, q.did, q.cid);
    LedSameCall(q, |t.log| - 1);
    LeadRecord(c, s, r);
  }

  lemma LedSameCall(q: Req, since: Index)
    requires Asks(q) || Waiting(q)
    ensures var p := Led(q, since); p.did == q.did && p.cid == q.cid && p.born == q.born
  {
  }

  lemma LeadRecord(c: Config, s: State, r: ReqId)
    requires CanLead(c, s, r)
    ensures var q := s.reqs[r];
            LedOwner(DoLead(c, s, r).log, r, q.did, q.cid) <==>
            LedOwner(s.log, r, q.did, q.cid) || Target(q).OwnerKey?
  {
    hide Hits, Without, Led;
    var t, q := DoLead(c, s, r), s.reqs[r];
    forall b: nat | b < |s.log|
      ensures OwnerBegun(t.log, b, r, q.did, q.cid) <==> OwnerBegun(s.log, b, r, q.did, q.cid)
    {
      assert t.log[b] == s.log[b];
    }
    if Target(q).OwnerKey? {
      assert OwnerBegun(t.log, |t.log| - 1, r, q.did, q.cid);
    }
    if b: nat :| OwnerBegun(t.log, b, r, q.did, q.cid) {
      assert b < |s.log| || b == |t.log| - 1;
    }
  }

  lemma DeliverStays(q: Req, v: Value, ev: Index, now: Time)
    requires q.status.Active?
    ensures var p := Deliver(q, v, ev, now); p.did == q.did && p.cid == q.cid && p.born == q.born
  {
  }

  lemma RejectStays(c: Config, q: Req, fault: Fault, ev: Index)
    requires q.status.Active?
    ensures var p := Reject(c, q, fault, ev); p.did == q.did && p.cid == q.cid && p.born == q.born
  {
  }

  predicate SamePair(s: State, t: State, w: ReqId) {
    && w in s.reqs && w in t.reqs
    && t.reqs[w].did == s.reqs[w].did && t.reqs[w].cid == s.reqs[w].cid && t.reqs[w].born == s.reqs[w].born
  }

  lemma StoreStays(c: Config, s: State, r: ReqId, w: ReqId)
    requires CanStore(c, s, r) && w in s.reqs
    ensures SamePair(s, DoStore(c, s, r), w)
  {
    hide Deliver;
    var k, job := Target(s.reqs[r]), JobOf(s, r);
    if Receives(c, s, r, k, w) {
      DeliverStays(s.reqs[w], StoredValue(job), job.ev, s.now);
    }
  }

  lemma BreakStays(c: Config, s: State, r: ReqId, sharers: set<ReqId>, w: ReqId)
    requires CanBreak(c, s, r, sharers) && w in s.reqs
    ensures SamePair(s, DoBreak(c, s, r, sharers), w)
  {
    hide Reject;
    if w == r || w in sharers {
      RejectStays(c, s.reqs[w], FaultOf(JobOf(s, r)), |s.log|);
    }
  }

  lemma HitStays(c: Config, s: State, r: ReqId, w: ReqId)
    requires CanHit(c, s, r) && w in s.reqs
    ensures SamePair(s, DoHit(c, s, r), w)
  {
    hide Deliver;
    var e := s.cache[Target(s.reqs[r])];
    DeliverStays(s.reqs[r], e.value, e.ev, s.now);
  }

  lemma LeadStays(c: Config, s: State, r: ReqId, w: ReqId)
    requires CanLead(c, s, r) && w in s.reqs
    ensures SamePair(s, DoLead(c, s, r), w)
  {
    hide Led, Hits, Without;
    LedSameCall(s.reqs[r], |DoLead(c, s, r).log| - 1);
  }

  lemma OwnStepStays(c: Config, s: State, step: Step, w: ReqId)
    requires !step.Store? && !step.Break? && !step.Hit? && !step.Lead?
    requires Enabled(c, s, step) && w in s.reqs
    ensures SamePair(s, Apply(c, s, step), w)
  {
    hide Hits, Accept, Downloaded, Panics, Ends, Stamp, Logged, Without, InScope, Visits;
  }

  /** No step changes whom and what a request is about, or when it arrived. */
  lemma RequestsStay(c: Config, s: State, step: Step, w: ReqId)
    requires Enabled(c, s, step) && w in s.reqs
    ensures SamePair(s, Apply(c, s, step), w)
  {
    hide SamePair, DoHit, DoJoin, DoLead, DoPolicyReply, DoPdsReply, DoOriginReply, DoBodyRead, DoVerify, DoStore,
      DoBreak, DoCancel, DoVisit, DoArrive, DoDrop, DoSkip;
    match step
    case Store(r) => StoreStays(c, s, r, w);
    case Break(r, sharers) => BreakStays(c, s, r, sharers, w);
    case Hit(r) => HitStays(c, s, r, w);
    case Lead(r) => LeadStays(c, s, r, w);
    case _ => OwnStepStays(c, s, step, w);
  }

  lemma LeadersStay(c: Config, s: State, step: Step)
    requires LeadersArrived(s) && Enabled(c, s, step)
    ensures LeadersArrived(Apply(c, s, step))
  {
    hide Enabled, Apply;
    var t := Apply(c, s, step);
    StepLog(c, s, step);
    forall i: nat | i < |t.log| && t.log[i].what.Began?
      ensures t.log[i].what.leader in t.reqs
    {
      if i < |s.log| {
        assert t.log[i] == s.log[i];
      } else {
        assert Caused(c, step, s, t.log[i].what);
      }
      RequestsStay(c, s, step, t.log[i].what.leader);
    }
  }

  /** A request just arrived is on no record. */
  lemma ArrivedCost(c: Config, s: State, r: ReqId, did: Did, cid: BlobCid)
    requires LogOk(s.log, s.now) && LeadersArrived(s) && r !in s.reqs
    ensures CostOk(s.log, r, DoArrive(s, r, did, cid).reqs[r])
  {
    hide LogOk;
  }

  lemma RequestCost(c: Config, s: State, step: Step, w: ReqId)
    requires Inv(c, s) && Enabled(c, s, step) && w in s.reqs && CostOk(s.log, w, s.reqs[w])
    ensures var t := Apply(c, s, step); w in t.reqs && CostOk(t.log, w, t.reqs[w])
  {
    hide Inv, Enabled, Apply, Accounted, DoVerify, DoLead;
    var q := s.reqs[w];
    StepKinds(c, s, step);
    if step == Verify(w) {
      VerifyCost(c, s, w);
    } else if step == Lead(w) {
      LeadCost(c, s, w);
    } else {
      RequestsStay(c, s, step, w);
      DataRecordSame(c, s, step, w, q.did, q.cid);
      OwnerRecordSame(c, s, step, w, q.did, q.cid);
      RecordSameAccounted(c, s, step, w, LedData(s.log, w, q.did, q.cid), LedOwner(s.log, w, q.did, q.cid));
    }
  }

  lemma StepKinds(c: Config, s: State, step: Step)
    requires Enabled(c, s, step)
    ensures step.Verify? ==> CanVerify(c, s, step.r) && Apply(c, s, step) == DoVerify(c, s, step.r)
    ensures step.Lead? ==> CanLead(c, s, step.r) && Apply(c, s, step) == DoLead(c, s, step.r)
    ensures step.Arrive? ==> step.r !in s.reqs && Apply(c, s, step) == DoArrive(s, step.r, step.did, step.cid)
  {
    hide DoVerify, DoLead, DoArrive;
  }

  lemma NewRequests(c: Config, s: State, step: Step, w: ReqId)
    requires Enabled(c, s, step) && w in Apply(c, s, step).reqs && w !in s.reqs
    ensures step.Arrive? && step.r == w
  {
    hide Hits, Accept, Downloaded, Panics, Ends, Stamp, Logged, Without, Receives, InScope, Visits, Deliver,
      Reject, Led;
  }

  lemma StepCost(c: Config, s: State, step: Step)
    requires Inv(c, s) && CostInv(s) && Enabled(c, s, step)
    ensures CostInv(Apply(c, s, step))
  {
    hide LogOk, CacheInv, FlightInv, HistoryInv, ReqInv, Enabled, Apply, CostOk, LeadersArrived;
    var t := Apply(c, s, step);
    LeadersStay(c, s, step);
    forall w | w in t.reqs
      ensures CostOk(t.log, w, t.reqs[w])
    {
      if w in s.reqs {
        RequestCost(c, s, step, w);
      } else {
        NewRequests(c, s, step, w);
        StepKinds(c, s, step);
        ArrivedCost(c, s, w, step.did, step.cid);
      }
    }
  }

  lemma {:induction false} RunCost(c: Config, states: seq<State>, steps: seq<Step>, i: nat)
    requires IsRun(c, states, steps) && i < |states|
    ensures CostInv(states[i])
  {
    hide Enabled, Apply, Inv, CostOk;
    if i > 0 {
      RunInv(c, states, steps, i - 1);
      RunCost(c, states, steps, i - 1);
      StepCost(c, states[i - 1], steps[i - 1]);
    }
  }

  // ---------- what a served request has cost ----------

  /** A served request has made one origin request for the data evaluation it led, if it led one, and one for
      the ownership evaluation it led, if it led one; nothing else it did, waited for or found cached cost any. */
  lemma ServedCost(c: Config, states: seq<State>, steps: seq<Step>, i: nat, r: ReqId)
    requires IsRun(c, states, steps) && i < |states| && WasServed(states[i], r)
    ensures var s := states[i]; var q := s.reqs[r];
            q.origin == One(LedData(s.log, r, q.did, q.cid)) + One(LedOwner(s.log, r, q.did, q.cid))
  {
    hide IsRun, LedData, LedOwner, LeadersArrived;
    RunCost(c, states, steps, i);
    assert CostOk(states[i].log, r, states[i].reqs[r]);
  }

  lemma {:induction false} ClockIsKept(c: Config, states: seq<State>, steps: seq<Step>, i: nat, j: nat)
    requires IsRun(c, states, steps) && i <= j < |states|
    ensures states[i].now <= states[j].now
  {
    hide Enabled, Apply;
    if i < j {
      ClockIsKept(c, states, steps, i, j - 1);
      StepClock(c, states[j - 1], steps[j - 1]);
    }
  }

  lemma StepClock(c: Config, s: State, step: Step)
    requires Enabled(c, s, step)
    ensures s.now <= Apply(c, s, step).now
  {
    hide Hits, Accept, Downloaded, Panics, Ends, Stamp, Logged, Without, InScope, Visits, Deliver, Reject,
      Led, Receives;
  }

  /** The note of a request's own data evaluation precedes the ownership evaluation it leads. */
  lemma NoteComesFirst(c: Config, states: seq<State>, steps: seq<Step>, i: nat, r: ReqId, did: Did, cid: BlobCid,
                       n: nat, b: nat)
    returns (m: nat)
    requires IsRun(c, states, steps) && i < |states|
    requires NotedBy(states[i].log, n, r, did, cid) && OwnerBegun(states[i].log, b, r, did, cid)
    ensures m < i <= |steps| && steps[m] == Lead(r) && Calls(states[m], r, OwnerKey(cid, did))
    ensures n < |states[m].log| <= b < |states[m + 1].log| && NotedBy(states[m].log, n, r, did, cid)
  {
    hide IsRun, Enabled, Apply, Inv, Rank;
    m := RecordHasCause(c, states, steps, i, b);
    var v := RecordHasCause(c, states, steps, i, n);
    NoteIsVerify(c, states, steps, i, v, r, did, cid, n);
    if m < v {
      RankKept(c, states, steps, m, v, r);
      OwnerIsLater(states[m].reqs[r], states[v].reqs[r], OwnerKey(cid, did));
    }
    LogIsKept(c, states, steps, v + 1, m);
    LogIsKept(c, states, steps, m, i);
    assert states[m].log[n] == states[i].log[n];
  }

  lemma OwnerIsLater(p: Req, q: Req, k: Key)
    requires p.status.Active? && q.status.Active? && Target(p) == k && k.OwnerKey? && q.status.stage.DataFetch?
    ensures Rank(p) < Rank(q)
  {
  }

  lemma NoteIsVerify(c: Config, states: seq<State>, steps: seq<Step>, i: nat, v: nat,
                     r: ReqId, did: Did, cid: BlobCid, n: nat)
    requires IsRun(c, states, steps) && v < i < |states| && NotedBy(states[i].log, n, r, did, cid)
    requires |states[v].log| <= n < |states[v + 1].log|
    ensures steps[v] == Verify(r) && r in states[v].reqs && states[v].reqs[r].status.Active?
    ensures states[v].reqs[r].status.stage.DataFetch?
  {
    hide Inv, Enabled, Apply, Accept;
    RunInv(c, states, steps, v);
    LogIsKept(c, states, steps, v + 1, i);
    assert states[v + 1].log[n] == states[i].log[n];
    var since := states[i].log[n].what.since;
    assert states[v + 1].log[since] == states[i].log[since];
    NoterIsLeader(c, states[v], steps[v], n, r, did, cid);
    VerifyActive(c, states[v], r);
  }

  lemma VerifyActive(c: Config, s: State, r: ReqId)
    requires CanVerify(c, s, r)
    ensures r in s.reqs && s.reqs[r].status.Active?
  {
  }

  /** What a request finds when it leads the ownership evaluation after all: the entry it noted was taken out, or
      is too old and is taken out now. */
  lemma LeadFindsNothing(c: Config, s: State, r: ReqId, k: Key, n: nat, b: nat)
    requires Inv(c, s) && CanLead(c, s, r) && Target(s.reqs[r]) == k
    requires n < |s.log| && s.log[n].what.Noted? && s.log[n].what.key == k
    requires |s.log| <= b < |DoLead(c, s, r).log| && DoLead(c, s, r).log[b].what.Began?
    ensures TakenBetween(DoLead(c, s, r).log, n, b, k)
  {
    hide LogOk, CacheInv, FlightInv, ReqInv, Hits, Without, Led;
    var t := DoLead(c, s, r);
    assert Puts(s.log[n].what, k);
    if k in s.cache {
      assert Takes(t.log[|s.log|].what, k);
    } else {
      TakenGrows(s.log, t.log, n, |s.log|, b, k);
    }
  }

  /** An ownership evaluation led after the note is led because the entry was gone. */
  lemma SecondLeadIsForced(c: Config, states: seq<State>, steps: seq<Step>, i: nat, r: ReqId, did: Did, cid: BlobCid,
                           n: nat, b: nat)
    requires IsRun(c, states, steps) && i < |states|
    requires NotedBy(states[i].log, n, r, did, cid) && OwnerBegun(states[i].log, b, r, did, cid)
    ensures n < b && TakenBetween(states[i].log, n, b, OwnerKey(cid, did))
  {
    hide Inv, Enabled, Apply, DoLead;
    var m := NoteComesFirst(c, states, steps, i, r, did, cid, n, b);
    RunInv(c, states, steps, m);
    StepKinds(c, states[m], steps[m]);
    LogIsKept(c, states, steps, m + 1, i);
    assert states[m + 1].log[b] == states[i].log[b];
    LeadFindsNothing(c, states[m], r, OwnerKey(cid, did), n, b);
    TakenGrows(states[m + 1].log, states[i].log, n, b, b, OwnerKey(cid, did));
  }

  /** A served request that led the data evaluation has made one origin request or two; two exactly when the
      ownership entry it had noted was evicted, purged or found expired before it led the ownership evaluation. */
  lemma SecondRequestIff(c: Config, states: seq<State>, steps: seq<Step>, i: nat, r: ReqId, n: nat)
    requires IsRun(c, states, steps) && i < |states| && WasServed(states[i], r)
    requires NotedBy(states[i].log, n, r, states[i].reqs[r].did, states[i].reqs[r].cid)
    ensures var s := states[i]; var q := s.reqs[r];
            && 1 <= q.origin <= 2
            && (q.origin == 2 <==>
                exists b: nat :: OwnerBegun(s.log, b, r, q.did, q.cid) && n < b
                                 && TakenBetween(s.log, n, b, OwnerKey(q.cid, q.did)))
  {
    hide IsRun, OwnerBegun, TakenBetween;
    var s := states[i];
    var q := s.reqs[r];
    ServedCost(c, states, steps, i, r);
    forall b: nat | OwnerBegun(s.log, b, r, q.did, q.cid)
      ensures n < b && TakenBetween(s.log, n, b, OwnerKey(q.cid, q.did))
    {
      SecondLeadIsForced(c, states, steps, i, r, q.did, q.cid, n, b);
    }
  }

  /** An entry is found expired only when its time to live has passed since every note of it. */
  lemma ExpiredIsOld(c: Config, states: seq<State>, steps: seq<Step>, i: nat, n: nat, x: nat, k: Key)
    requires IsRun(c, states, steps) && i < |states| && n < x < |states[i].log| && k.OwnerKey?
    requires states[i].log[n].what.Noted? && states[i].log[n].what.key == k && states[i].log[x].what == Expired(k)
    ensures states[i].log[n].time + c.ownershipTtl <= states[i].now
  {
    hide Enabled, Apply, LogOk, FlightInv, ReqInv, HistoryInv;
    var m := RecordHasCause(c, states, steps, i, x);
    StepLog(c, states[m], steps[m]);
    LogIsKept(c, states, steps, m + 1, i);
    ClockIsKept(c, states, steps, m, i);
    RunInv(c, states, steps, m);
    var s := states[m];
    assert states[m + 1].log[n] == states[i].log[n];
    assert n < |s.log|;
    assert s.log[n] == states[i].log[n] && Puts(s.log[n].what, k);
    assert EntryOk(c, s.log, s.now, k, s.cache[k]);
  }

  /** A served request that led the data evaluation has made exactly one origin request, if the ownership entry
      it noted was neither evicted nor purged since and its time to live has not passed. */
  lemma LedOnceCostsOne(c: Config, states: seq<State>, steps: seq<Step>, i: nat, r: ReqId, n: nat)
    requires IsRun(c, states, steps) && i < |states| && WasServed(states[i], r)
    requires NotedBy(states[i].log, n, r, states[i].reqs[r].did, states[i].reqs[r].cid)
    requires var k := OwnerKey(states[i].reqs[r].cid, states[i].reqs[r].did);
             forall x: nat :: n < x < |states[i].log| ==>
               states[i].log[x].what != Removed(k) && !PurgesKey(states[i].log[x].what, k)
    requires states[i].now < states[i].log[n].time + c.ownershipTtl
    ensures states[i].reqs[r].origin == 1
  {
    hide IsRun, PurgesKey, OwnerBegun;
    var s := states[i];
    var q := s.reqs[r];
    var k := OwnerKey(q.cid, q.did);
    SecondRequestIff(c, states, steps, i, r, n);
    if q.origin == 2 {
      var b: nat :| OwnerBegun(s.log, b, r, q.did, q.cid) && n < b && TakenBetween(s.log, n, b, k);
      var x: nat :| n < x < b && x < |s.log| && Takes(s.log[x].what, k);
      ExpiredIsOld(c, states, steps, i, n, x, k);
    }
  }
}
