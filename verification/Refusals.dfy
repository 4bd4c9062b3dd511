/** Why a request is refused: the other half of serving safety. Every refusal in every run goes back to an answer,
    a failure or a cancellation of that run. A failed download may be another actor's, and is then shared. */
module Refusals {
  import opened Wrappers
  import opened BlobCids
  import opened BlobRules
  import opened Protocol
  import opened Invariants
  import opened Preservation
  import opened Completion
  import opened Guarantees
  import opened Progress
  import opened OriginCosts

  // ---------- the refusing step ----------

  /** An evaluation that breaks, and `r` leads it or waits for it and shares its error. */
  predicate BreaksFor(c: Config, s: State, step: Step, r: ReqId, k: Key) {
    && step.Break? && Calls(s, step.r, k) && AtJob(c, s, step.r)
    && (step.r == r || (r in step.sharers && r in s.reqs && WaitsFor(s.reqs[r], k)))
  }

  /** What must be the case where a request is refused. */
  ghost predicate Grounds(c: Config, s: State, step: Step, r: ReqId, f: Refusal)
    requires r in s.reqs
  {
    var did, cid := s.reqs[r].did, s.reqs[r].cid;
    match f
    case PolicyForbids =>
      exists ev: Index ::
        PolicyAt(s.log, ev, did, cid, Forbidden) && s.now <= s.log[ev].time + c.policyTtl + c.timeout
    case PolicyUnavailable =>
      !c.failOpen && BreaksFor(c, s, step, r, PolicyKey(did, cid)) && JobOf(s, step.r).Query?
    case DownloadFailed(e) => BreaksFor(c, s, step, r, DataKey(cid)) && JobOf(s, step.r) == Broken(DataFault(e))
    case OwnershipFailed(e) => BreaksFor(c, s, step, r, OwnerKey(cid, did)) && JobOf(s, step.r) == Broken(OwnerFault(e))
    case Aborted => step == Cancel(r)
  }

  lemma DeliverRefuses(q: Req, v: Value, ev: Index, now: Time, f: Refusal)
    requires q.status.Active? && Deliver(q, v, ev, now).status == Done(Refused(f))
    ensures f == PolicyForbids && !InPds(q.status.point) && q.status.stage.PolicyCheck? && v != Ruling(Allowed)
  {
  }

  lemma RejectRefuses(c: Config, q: Req, fault: Fault, ev: Index, f: Refusal)
    requires q.status.Active? && Reject(c, q, fault, ev).status == Done(Refused(f)) && FaultFits(Target(q), fault)
    ensures !InPds(q.status.point)
    ensures match q.status.stage
            case PolicyCheck => f == PolicyUnavailable && !c.failOpen && fault == PolicyFault
            case DataFetch(_) => fault.DataFault? && f == DownloadFailed(fault.download)
            case OwnerCheck(_, _, _) => fault.OwnerFault? && f == OwnershipFailed(fault.ownership)
  {
  }

  /** A usable ruling that does not allow forbids. */
  lemma ForbiddenValue(c: Config, log: seq<Record>, now: Time, did: Did, cid: BlobCid, v: Value, ev: Index)
    requires Usable(c, log, now, PolicyKey(did, cid), v, ev) && v != Ruling(Allowed)
    ensures PolicyAt(log, ev, did, cid, Forbidden) && now <= log[ev].time + c.policyTtl + c.timeout
  {
    hide Outlives;
  }

  lemma HitRefuses(c: Config, s: State, r: ReqId, f: Refusal)
    requires CacheInv(c, s) && CanHit(c, s, r) && DoHit(c, s, r).reqs[r].status == Done(Refused(f))
    ensures Grounds(c, s, Hit(r), r, f)
  {
    hide EntryOk, Deliver, Usable, PolicyAt;
    var q, e := s.reqs[r], s.cache[Target(s.reqs[r])];
    DeliverRefuses(q, e.value, e.ev, s.now, f);
    HitIsUsable(c, s, Target(q));
    ForbiddenValue(c, s.log, s.now, q.did, q.cid, e.value, e.ev);
  }

  lemma StoreRefuses(c: Config, s: State, x: ReqId, r: ReqId, f: Refusal)
    requires ReqInv(c, s) && CanStore(c, s, x) && r in s.reqs && s.reqs[r].status.Active?
    requires DoStore(c, s, x).reqs[r].status == Done(Refused(f))
    ensures Grounds(c, s, Store(x), r, f)
  {
    hide ReqOk, Deliver, Usable, PolicyAt, Backs;
    var q, job := s.reqs[r], JobOf(s, x);
    assert Receives(c, s, x, Target(s.reqs[x]), r);
    DeliverRefuses(q, StoredValue(job), job.ev, s.now, f);
    StoreUsable(c, s, x);
    ForbiddenValue(c, s.log, s.now, q.did, q.cid, StoredValue(job), job.ev);
  }

  lemma BreakRefuses(c: Config, s: State, x: ReqId, sharers: set<ReqId>, r: ReqId, f: Refusal)
    requires ReqInv(c, s) && CanBreak(c, s, x, sharers) && r in s.reqs && s.reqs[r].status.Active?
    requires DoBreak(c, s, x, sharers).reqs[r].status == Done(Refused(f))
    ensures Grounds(c, s, Break(x, sharers), r, f)
  {
    hide ReqOk, Reject, Unended;
    var q, fault := s.reqs[r], FaultOf(JobOf(s, x));
    BreakFacts(c, s, x, sharers);
    assert r == x || r in sharers;
    RejectRefuses(c, q, fault, |s.log|, f);
    FaultIsJob(JobOf(s, x));
    if q.status.stage.PolicyCheck? {
      PolicyErrorIsQuery(c, s, Break(x, sharers), Target(q), 0);
    }
  }

  /** Which job an error comes from. */
  lemma FaultIsJob(job: Job)
    requires job.Query? || job.QueryPds? || job.Broken?
    ensures FaultOf(job) == PolicyFault ==> job.Query? || job == Broken(PolicyFault)
    ensures FaultOf(job).DataFault? || FaultOf(job).OwnerFault? ==> job == Broken(FaultOf(job))
  {
  }

  lemma LedStaysActive(q: Req, since: Index)
    requires Asks(q) || Waiting(q)
    ensures Led(q, since).status.Active?
  {
  }

  /** Nothing else refuses a request. */
  lemma OtherStepsDoNot(c: Config, s: State, step: Step, r: ReqId)
    requires !step.Hit? && !step.Store? && !step.Break? && !step.Cancel?
    requires Enabled(c, s, step) && r in s.reqs && s.reqs[r].status.Active?
    ensures r in Apply(c, s, step).reqs && Apply(c, s, step).reqs[r].status.Active?
  {
    hide Hits, Accept, Downloaded, Panics, Logged, Without, InScope, Visits, Led;
    if step.Lead? {
      LedStaysActive(s.reqs[step.r], |Apply(c, s, step).log| - 1);
    }
  }

  lemma StepRefuses(c: Config, s: State, step: Step, r: ReqId, f: Refusal)
    requires Inv(c, s) && Enabled(c, s, step) && r in s.reqs && s.reqs[r].status.Active?
    requires r in Apply(c, s, step).reqs && Apply(c, s, step).reqs[r].status == Done(Refused(f))
    ensures Grounds(c, s, step, r, f)
  {
    hide LogOk, CacheInv, FlightInv, HistoryInv, ReqInv, Grounds, DoHit, DoStore, DoBreak, DoJoin, DoLead,
      DoPolicyReply, DoPdsReply, DoOriginReply, DoBodyRead, DoVerify, DoVisit, DoArrive, DoDrop, DoSkip;
    match step
    case Hit(x) =>
      if x != r {
        OthersStay(c, s, step, r);
      } else {
        HitRefuses(c, s, r, f);
      }
    case Store(x) => StoreRefuses(c, s, x, r, f);
    case Break(x, sharers) => BreakRefuses(c, s, x, sharers, r, f);
    case Cancel(x) => CancelRefuses(c, s, x, r, f);
    case _ => OtherStepsDoNot(c, s, step, r);
  }

  lemma CancelRefuses(c: Config, s: State, x: ReqId, r: ReqId, f: Refusal)
    requires CanCancel(s, x) && r in s.reqs && s.reqs[r].status.Active?
    requires DoCancel(c, s, x).reqs[r].status == Done(Refused(f))
    ensures Grounds(c, s, Cancel(x), r, f)
  {
    hide Ends, Stamp;
  }

  /** The step at which a request became refused. */
  lemma {:induction false} BecameRefused(c: Config, states: seq<State>, steps: seq<Step>, i: nat, r: ReqId, f: Refusal)
    returns (n: nat)
    requires IsRun(c, states, steps) && i < |states| && r in states[i].reqs
    requires states[i].reqs[r].status == Done(Refused(f))
    ensures n < i <= |steps| && r in states[n].reqs && states[n].reqs[r].status.Active?
    ensures r in states[n + 1].reqs && states[n + 1].reqs[r].status == Done(Refused(f))
    ensures states[n].reqs[r].did == states[i].reqs[r].did && states[n].reqs[r].cid == states[i].reqs[r].cid
  {
    hide Enabled, Apply;
    var s, step := states[i - 1], steps[i - 1];
    if r !in s.reqs {
      NewRequests(c, s, step, r);
      StepKinds(c, s, step);
    }
    RequestsStay(c, s, step, r);
    if s.reqs[r].status.Done? {
      ReplyStands(c, s, step, r);
      n := BecameRefused(c, states, steps, i - 1, r, f);
    } else {
      n := i - 1;
    }
  }

  // ---------- the failing step ----------

  /** The step breaks the evaluation that `x` has been running since `since`: its origin refuses or does not
      answer, its body does not come through or is not accepted, or the resolution of its actor fails. */
  predicate Fails(c: Config, s: State, step: Step, x: ReqId, since: Index, fault: Fault) {
    && RunsSince(s, x, since)
    && match step
       case OriginReply(r, answer) =>
         && r == x && answer != Ok
         && fault == (if s.reqs[x].status.stage.OwnerCheck? then OwnerFault(OwnershipErrorOf(answer))
                      else DataFault(DownloadErrorOf(answer)))
       case BodyRead(r, declared, chunks) =>
         var body := Downloaded(c.rules, declared, chunks); r == x && body.Failure? && fault == DataFault(body.error)
       case Verify(r) =>
         && r == x && JobOf(s, x).Check?
         && var verdict := Accept(c.rules, s.reqs[x].cid, JobOf(s, x).bytes);
            verdict.Failure? && fault == DataFault(verdict.error)
       case Break(y, sharers) =>
         && BreaksFor(c, s, step, x, PdsKey(s.reqs[x].did)) && JobOf(s, y).QueryPds?
         && fault == (if s.reqs[x].status.stage.OwnerCheck? then OwnerFault(OwnerResolutionFailure)
                      else DataFault(ResolutionFailure))
       case _ => false
  }

  predicate BrokenBy(q: Req, since: Index, fault: Fault) {
    q.status.Active? && q.status.point == Run(since, Broken(fault))
  }

  lemma RejectBreaks(c: Config, q: Req, f: Fault, ev: Index, since: Index, fault: Fault)
    requires q.status.Active? && BrokenBy(Reject(c, q, f, ev), since, fault)
    ensures InPds(q.status.point) && q.status.point.since == since
    ensures fault == (if q.status.stage.OwnerCheck? then OwnerFault(OwnerResolutionFailure)
                      else DataFault(ResolutionFailure))
  {
  }

  lemma DeliverDoesNotBreak(q: Req, v: Value, ev: Index, now: Time, since: Index, fault: Fault)
    requires q.status.Active? && BrokenBy(Deliver(q, v, ev, now), since, fault)
    ensures BrokenBy(q, since, fault)
  {
  }

  lemma BreakBreaks(c: Config, s: State, y: ReqId, sharers: set<ReqId>, x: ReqId, since: Index, fault: Fault)
    requires ReqInv(c, s) && CanBreak(c, s, y, sharers) && x in s.reqs && !BrokenBy(s.reqs[x], since, fault)
    requires BrokenBy(DoBreak(c, s, y, sharers).reqs[x], since, fault)
    ensures Fails(c, s, Break(y, sharers), x, since, fault)
  {
    hide ReqOk, Reject, Unended;
    assert x == y || x in sharers;
    RejectBreaks(c, s.reqs[x], FaultOf(JobOf(s, y)), |s.log|, since, fault);
    PdsErrorIsQuery(c, s, y, sharers);
  }

  lemma PdsErrorIsQuery(c: Config, s: State, y: ReqId, sharers: set<ReqId>)
    requires CanBreak(c, s, y, sharers) && Target(s.reqs[y]).PdsKey?
    ensures JobOf(s, y).QueryPds?
  {
  }

  lemma StoreDoesNotBreak(c: Config, s: State, y: ReqId, x: ReqId, since: Index, fault: Fault)
    requires CanStore(c, s, y) && x in s.reqs && BrokenBy(DoStore(c, s, y).reqs[x], since, fault)
    ensures BrokenBy(s.reqs[x], since, fault)
  {
    hide Deliver, BrokenBy;
    var job := JobOf(s, y);
    if Receives(c, s, y, Target(s.reqs[y]), x) {
      DeliverDoesNotBreak(s.reqs[x], StoredValue(job), job.ev, s.now, since, fault);
    }
  }

  lemma HitDoesNotBreak(c: Config, s: State, x: ReqId, since: Index, fault: Fault)
    requires CanHit(c, s, x) && BrokenBy(DoHit(c, s, x).reqs[x], since, fault)
    ensures BrokenBy(s.reqs[x], since, fault)
  {
    hide Deliver, BrokenBy;
    var e := s.cache[Target(s.reqs[x])];
    DeliverDoesNotBreak(s.reqs[x], e.value, e.ev, s.now, since, fault);
  }

  lemma AnswerBreaks(c: Config, s: State, step: Step, since: Index, fault: Fault)
    requires step.OriginReply? || step.BodyRead? || step.Verify?
    requires Enabled(c, s, step) && step.r in s.reqs
    requires step.r in Apply(c, s, step).reqs && BrokenBy(Apply(c, s, step).reqs[step.r], since, fault)
    ensures Fails(c, s, step, step.r, since, fault)
  {
    hide Accept, Downloaded, Panics, Logged;
  }

  lemma OwnStepDoesNotBreak(c: Config, s: State, step: Step, since: Index, fault: Fault)
    requires step.PolicyReply? || step.PdsReply? || step.Lead? || step.Join? || step.SkipPolicy? || step.Cancel?
    requires Enabled(c, s, step) && step.r in s.reqs && step.r in Apply(c, s, step).reqs
    ensures !BrokenBy(Apply(c, s, step).reqs[step.r], since, fault)
  {
    hide Hits, Logged, Without, Ends, Stamp;
  }

  lemma StepBreaks(c: Config, s: State, step: Step, x: ReqId, since: Index, fault: Fault)
    requires Inv(c, s) && Enabled(c, s, step) && x in s.reqs && !BrokenBy(s.reqs[x], since, fault)
    requires x in Apply(c, s, step).reqs && BrokenBy(Apply(c, s, step).reqs[x], since, fault)
    ensures Fails(c, s, step, x, since, fault)
  {
    hide LogOk, CacheInv, FlightInv, HistoryInv, ReqInv, Fails, BrokenBy, DoHit, DoStore, DoBreak, DoJoin, DoLead,
      DoPolicyReply, DoPdsReply, DoOriginReply, DoBodyRead, DoVerify, DoVisit, DoArrive, DoDrop, DoSkip, DoCancel;
    if !IsWork(step) || step.VisitCache? {
      OutsideKeepsReqs(c, s, step, x);
    } else if step.Store? {
      StoreDoesNotBreak(c, s, step.r, x, since, fault);
    } else if step.Break? {
      BreakBreaks(c, s, step.r, step.sharers, x, since, fault);
    } else if Actor(step) != x {
      OthersStay(c, s, step, x);
    } else if step.Hit? {
      HitDoesNotBreak(c, s, x, since, fault);
    } else if step.OriginReply? || step.BodyRead? || step.Verify? {
      AnswerBreaks(c, s, step, since, fault);
    } else {
      OwnStepDoesNotBreak(c, s, step, since, fault);
    }
  }

  /** A broken evaluation was broken by a step of the run. */
  lemma {:induction false} BrokenCause(c: Config, states: seq<State>, steps: seq<Step>, i: nat, x: ReqId,
                                       since: Index, fault: Fault)
    returns (m: nat)
    requires IsRun(c, states, steps) && i < |states| && x in states[i].reqs && BrokenBy(states[i].reqs[x], since, fault)
    ensures m < i <= |steps| && Fails(c, states[m], steps[m], x, since, fault)
    ensures x in states[m].reqs
    ensures states[m].reqs[x].did == states[i].reqs[x].did && states[m].reqs[x].cid == states[i].reqs[x].cid
  {
    hide Enabled, Apply, Inv, Fails, BrokenBy;
    NewIsNotBroken(c, states, steps, i, x, since, fault);
    var s, step := states[i - 1], steps[i - 1];
    RequestsStay(c, s, step, x);
    if BrokenBy(s.reqs[x], since, fault) {
      m := BrokenCause(c, states, steps, i - 1, x, since, fault);
    } else {
      RunInv(c, states, steps, i - 1);
      StepBreaks(c, s, step, x, since, fault);
      m := i - 1;
    }
  }

  lemma NewIsNotBroken(c: Config, states: seq<State>, steps: seq<Step>, i: nat, x: ReqId, since: Index, fault: Fault)
    requires IsRun(c, states, steps) && i < |states| && x in states[i].reqs && BrokenBy(states[i].reqs[x], since, fault)
    ensures i > 0 && x in states[i - 1].reqs
  {
    hide Enabled, Apply;
    if i > 0 && x !in states[i - 1].reqs {
      NewRequests(c, states[i - 1], steps[i - 1], x);
      StepKinds(c, states[i - 1], steps[i - 1]);
    }
  }

  // ---------- every refusal ----------

  /** The error behind a refusal. */
  function FaultBehind(f: Refusal): Option<Fault> {
    match f
    case DownloadFailed(e) => Some(DataFault(e))
    case OwnershipFailed(e) => Some(OwnerFault(e))
    case _ => None
  }

  /** Every refusal is justified. At the refusing step `n` a Forbidden of at most policy TTL + T is on record for
      the very pair; or with fail-open off a policy query for the pair failed; or an evaluation of the very blob,
      or of the very ownership, broke, which the request led or had joined; or the request was cancelled. And what
      broke was broken by a step `m` of the run: an origin's refusal or silence, a body that failed or was not
      accepted, or a resolution of the leader's actor that failed. For an ownership refusal that is the request's
      own actor; for a download it is the leader's, which may be another. */
  lemma RefusalsAreJustified(c: Config, states: seq<State>, steps: seq<Step>, i: nat, r: ReqId, f: Refusal)
    returns (n: nat, m: nat)
    requires IsRun(c, states, steps) && i < |states| && r in states[i].reqs
    requires states[i].reqs[r].status == Done(Refused(f))
    ensures var q := states[i].reqs[r];
            && n < i <= |steps| && r in states[n].reqs
            && states[n].reqs[r].did == q.did && states[n].reqs[r].cid == q.cid
            && Grounds(c, states[n], steps[n], r, f)
    ensures FaultBehind(f).Some? ==>
              var x := steps[n].r; var leader := states[n].reqs[x];
              && m < n && Fails(c, states[m], steps[m], x, leader.status.point.since, FaultBehind(f).value)
              && states[m].reqs[x].did == leader.did && states[m].reqs[x].cid == leader.cid == states[i].reqs[r].cid
              && (f.OwnershipFailed? ==> leader.did == states[i].reqs[r].did)
  {
    hide Enabled, Apply, Inv, Grounds, Fails;
    n := BecameRefused(c, states, steps, i, r, f);
    RunInv(c, states, steps, n);
    StepRefuses(c, states[n], steps[n], r, f);
    if FaultBehind(f).Some? {
      GroundsBroken(c, states[n], steps[n], r, f);
      RunInv(c, states, steps, n);
      var leader := states[n].reqs[steps[n].r];
      m := BrokenCause(c, states, steps, n, steps[n].r, leader.status.point.since, FaultBehind(f).value);
    } else {
      m := 0;
    }
  }

  lemma GroundsBroken(c: Config, s: State, step: Step, r: ReqId, f: Refusal)
    requires r in s.reqs && Grounds(c, s, step, r, f) && FaultBehind(f).Some?
    ensures step.Break? && step.r in s.reqs && s.reqs[step.r].status.Active? && s.reqs[step.r].status.point.Run?
    ensures BrokenBy(s.reqs[step.r], s.reqs[step.r].status.point.since, FaultBehind(f).value)
    ensures s.reqs[step.r].cid == s.reqs[r].cid
    ensures f.OwnershipFailed? ==> s.reqs[step.r].did == s.reqs[r].did
  {
  }
}
