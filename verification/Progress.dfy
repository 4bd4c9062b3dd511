/** Deadlock freedom, termination and origin cost of the protocol. */
module Progress {
  import opened Wrappers
  import opened BlobRules
  import opened Protocol
  import opened Invariants
  import opened Preservation
  import opened Completion
  import opened Sums

  // ---------- deadlock freedom ----------

  /** The request waits for a leader that is still running. */
  predicate Blocked(s: State, r: ReqId) {
    r in s.reqs && Waiting(s.reqs[r]) && Target(s.reqs[r]) in s.flight
  }

  /** The request at the end of the wait chain: a waiter waits for a leader, and only a leader of a data or an
      ownership evaluation can itself wait, for a leader of an identity resolution, which waits for no one. */
  function Mover(s: State, r: ReqId): ReqId
    requires r in s.reqs && s.reqs[r].status.Active?
  {
    if !Blocked(s, r) then r
    else
      var w := s.flight[Target(s.reqs[r])];
      if Blocked(s, w) then s.flight[Target(s.reqs[w])] else w
  }

  lemma LeaderOf(s: State, r: ReqId)
    requires FlightInv(s) && Blocked(s, r)
    ensures var w := s.flight[Target(s.reqs[r])]; w in s.reqs && Leads(s.reqs[w], Target(s.reqs[r]))
  {
    hide Leads;
  }

  /** A leader that waits leads a data or ownership evaluation and waits in the identity service. */
  lemma BlockedLeader(s: State, w: ReqId, k: Key)
    requires w in s.reqs && Leads(s.reqs[w], k) && Blocked(s, w)
    ensures Target(s.reqs[w]) == PdsKey(s.reqs[w].did) && !k.PdsKey?
  {
  }

  lemma PdsLeaderMoves(s: State, w: ReqId, did: Did)
    requires w in s.reqs && Leads(s.reqs[w], PdsKey(did))
    ensures !Waiting(s.reqs[w]) && s.reqs[w].status.Active?
  {
  }

  lemma MoverMoves(s: State, r: ReqId)
    requires FlightInv(s) && r in s.reqs && s.reqs[r].status.Active?
    ensures var m := Mover(s, r); m in s.reqs && s.reqs[m].status.Active? && !Blocked(s, m)
  {
    hide FlightInv;
    if Blocked(s, r) {
      LeaderOf(s, r);
      var w := s.flight[Target(s.reqs[r])];
      if Blocked(s, w) {
        BlockedLeader(s, w, Target(s.reqs[r]));
        LeaderOf(s, w);
        PdsLeaderMoves(s, s.flight[Target(s.reqs[w])], s.reqs[w].did);
      }
    }
  }

  /** What an unblocked request can do: its own next step, a failing answer where it waits for one, or, once
      its timeout has passed, the cancellation. */
  function NextStep(c: Config, s: State, m: ReqId): Step
    requires m in s.reqs && s.reqs[m].status.Active?
  {
    var q := s.reqs[m];
    if s.now > q.start + c.timeout then Cancel(m)
    else if q.status.stage.PolicyCheck? && !q.status.point.Run? && !c.hasPolicy then SkipPolicy(m)
    else if Asks(q) || Waiting(q) then
      if Hits(c, s, Target(q)) then Hit(m)
      else if Target(q) in s.flight then Join(m)
      else Lead(m)
    else
      match q.status.point.job
      case KeepPds(_, _, _) => Store(m)
      case Fetch(_, _) => OriginReply(m, Unreachable)
      case Body(_) => BodyRead(m, None, [])
      case Check(_, _) => Verify(m)
      case Keep(_, _) => Store(m)
      case _ => Break(m, {})
  }

  lemma NextStepEnabled(c: Config, s: State, m: ReqId)
    requires ReqInv(c, s) && m in s.reqs && s.reqs[m].status.Active? && !Blocked(s, m)
    ensures Enabled(c, s, NextStep(c, s, m))
  {
    hide PassOk, DataOk, ReplyOk, Hits;
    assert ReqOk(c, s.log, s.now, m, s.reqs[m]);
  }

  /** The steps that are work of a request or of a purge; the others come from outside. */
  predicate IsWork(step: Step) {
    !step.Arrive? && !step.StartPurge? && !step.Tick? && !step.Drop?
  }

  /** Deadlock freedom: while a request is unfinished, some request on its wait chain has a step, and that step
      is a cancellation only if its timeout has passed. */
  lemma NoDeadlock(c: Config, states: seq<State>, steps: seq<Step>, i: nat, r: ReqId) returns (m: ReqId, step: Step)
    requires IsRun(c, states, steps) && i < |states|
    requires r in states[i].reqs && states[i].reqs[r].status.Active?
    ensures var s := states[i];
            && m == Mover(s, r) && m in s.reqs && Enabled(c, s, step) && IsWork(step)
            && (step.Cancel? ==> s.now > s.reqs[m].start + c.timeout)
  {
    hide IsRun, LogOk, CacheInv, ReqInv, HistoryInv, FlightInv, Enabled;
    var s := states[i];
    RunInv(c, states, steps, i);
    m := Mover(s, r);
    MoverMoves(s, r);
    NextStepEnabled(c, s, m);
    step := NextStep(c, s, m);
  }

  // ---------- termination ----------

  function JobRank(job: Job): nat {
    match job
    case AskPds => 13
    case WaitPds => 12
    case QueryPds(_) => 11
    case KeepPds(_, _, _) => 10
    case Fetch(_, _) => 9
    case Body(_) => 8
    case Query => 8
    case Check(_, _) => 7
    case Keep(_, _) => 6
    case Broken(_) => 5
  }

  function PointRank(point: Point): nat {
    match point
    case Ask => 15
    case Wait => 14
    case Run(_, job) => JobRank(job)
  }

  /** How many steps a request can still take, at most. Each cache call is asked, perhaps waited for, and led at
      most once, whoever fails in between. */
  function Rank(q: Req): nat {
    match q.status
    case Done(_) => 0
    case Active(PolicyCheck, point) => 41 + PointRank(point)
    case Active(DataFetch(_), point) => 21 + PointRank(point)
    case Active(OwnerCheck(_, _, _), point) => 1 + PointRank(point)
  }

  function ReqRank(s: State, r: ReqId): nat {
    if r in s.reqs then Rank(s.reqs[r]) else 0
  }

  function PurgeRank(c: Config, s: State, j: JobId): nat {
    if j in s.purges && s.purges[j].visited <= |Visits(c, s.purges[j].scope)| then
      |Visits(c, s.purges[j].scope)| - s.purges[j].visited
    else 0
  }

  ghost function Measure(c: Config, s: State): nat {
    Sum(s.reqs.Keys, r => ReqRank(s, r)) + Sum(s.purges.Keys, j => PurgeRank(c, s, j))
  }

  lemma DeliverRank(q: Req, v: Value, ev: Index, now: Time)
    requires q.status.Active?
    requires InPds(q.status.point) ==> v.Endpoint?
    requires !InPds(q.status.point) && q.status.stage.DataFetch? ==> v.Content?
    ensures Rank(Deliver(q, v, ev, now)) < Rank(q)
  {
  }

  lemma RejectRank(c: Config, q: Req, fault: Fault, ev: Index)
    requires q.status.Active?
    ensures Rank(Reject(c, q, fault, ev)) < Rank(q)
  {
  }

  lemma LedRank(q: Req, since: Index)
    requires Asks(q) || Waiting(q)
    ensures Rank(Led(q, since)) < Rank(q)
  {
  }

  /** The request whose step it is; a purge's visit is nobody's. */
  function Actor(step: Step): ReqId
    requires IsWork(step) && !step.VisitCache?
  {
    step.r
  }

  predicate RanksFall(s: State, t: State, r: ReqId) {
    && t.reqs.Keys == s.reqs.Keys && r in s.reqs && t.purges == s.purges
    && (forall w :: w in s.reqs ==> Rank(t.reqs[w]) <= Rank(s.reqs[w]))
    && Rank(t.reqs[r]) < Rank(s.reqs[r])
  }

  lemma StoreRanks(c: Config, s: State, r: ReqId)
    requires ReqInv(c, s) && CanStore(c, s, r)
    ensures RanksFall(s, DoStore(c, s, r), r)
  {
    hide ReqOk, Rank, Deliver, Usable, Backs;
    var k, job := Target(s.reqs[r]), JobOf(s, r);
    StoreUsable(c, s, r);
    UsableKind(c, s.log, s.now, k, StoredValue(job), job.ev);
    forall w | w in s.reqs && Receives(c, s, r, k, w)
      ensures Rank(Deliver(s.reqs[w], StoredValue(job), job.ev, s.now)) < Rank(s.reqs[w])
    {
      DeliverRank(s.reqs[w], StoredValue(job), job.ev, s.now);
    }
  }

  lemma HitRanks(c: Config, s: State, r: ReqId)
    requires CacheInv(c, s) && CanHit(c, s, r)
    ensures RanksFall(s, DoHit(c, s, r), r)
  {
    hide EntryOk, Rank, Deliver, Usable;
    var k := Target(s.reqs[r]);
    HitIsUsable(c, s, k);
    UsableKind(c, s.log, s.now, k, s.cache[k].value, s.cache[k].ev);
    DeliverRank(s.reqs[r], s.cache[k].value, s.cache[k].ev, s.now);
  }

  lemma BreakRanks(c: Config, s: State, r: ReqId, sharers: set<ReqId>)
    requires CanBreak(c, s, r, sharers)
    ensures RanksFall(s, DoBreak(c, s, r, sharers), r)
  {
    hide Rank, Reject;
    forall w | w == r || w in sharers
      ensures Rank(Reject(c, s.reqs[w], FaultOf(JobOf(s, r)), |s.log|)) < Rank(s.reqs[w])
    {
      RejectRank(c, s.reqs[w], FaultOf(JobOf(s, r)), |s.log|);
    }
  }

  lemma LeadRanks(c: Config, s: State, r: ReqId)
    requires CanLead(c, s, r)
    ensures RanksFall(s, DoLead(c, s, r), r)
  {
    hide Rank, Led;
    LedRank(s.reqs[r], |DoLead(c, s, r).log| - 1);
  }

  lemma JobRanks(c: Config, s: State, t: State, r: ReqId, job: Job)
    requires AtJob(c, s, r) && t.reqs == WithJob(s, r, job) && t.purges == s.purges
    requires JobRank(job) < JobRank(JobOf(s, r))
    ensures RanksFall(s, t, r)
  {
  }

  lemma ReplyRanks(c: Config, s: State, step: Step)
    requires step.PolicyReply? || step.PdsReply? || step.OriginReply?
    requires Enabled(c, s, step)
    ensures RanksFall(s, Apply(c, s, step), step.r)
  {
    hide Rank, Logged, RanksFall;
    var t := Apply(c, s, step);
    JobRanks(c, s, t, step.r, t.reqs[step.r].status.point.job);
  }

  lemma BodyRanks(c: Config, s: State, step: Step)
    requires step.BodyRead? || step.Verify?
    requires Enabled(c, s, step)
    ensures RanksFall(s, Apply(c, s, step), step.r)
  {
    hide Rank, Accept, Downloaded, Panics, Logged, RanksFall;
    var t := Apply(c, s, step);
    JobRanks(c, s, t, step.r, t.reqs[step.r].status.point.job);
  }

  lemma CallRanks(c: Config, s: State, step: Step)
    requires step.SkipPolicy? || step.Join? || step.Cancel?
    requires Enabled(c, s, step)
    ensures RanksFall(s, Apply(c, s, step), step.r)
  {
    hide Hits, Ends, Stamp;
  }

  lemma WorkRanks(c: Config, s: State, step: Step)
    requires Inv(c, s) && Enabled(c, s, step) && IsWork(step) && !step.VisitCache?
    ensures RanksFall(s, Apply(c, s, step), Actor(step))
  {
    hide LogOk, CacheInv, FlightInv, HistoryInv, ReqInv, RanksFall, DoHit, DoLead, DoStore, DoBreak,
      DoPolicyReply, DoPdsReply, DoOriginReply, DoBodyRead, DoVerify, DoSkip, DoJoin, DoCancel;
    match step
    case Hit(r) => HitRanks(c, s, r);
    case Lead(r) => LeadRanks(c, s, r);
    case Store(r) => StoreRanks(c, s, r);
    case Break(r, sharers) => BreakRanks(c, s, r, sharers);
    case PolicyReply(_, _) => ReplyRanks(c, s, step);
    case PdsReply(_, _) => ReplyRanks(c, s, step);
    case OriginReply(_, _) => ReplyRanks(c, s, step);
    case BodyRead(_, _, _) => BodyRanks(c, s, step);
    case Verify(_) => BodyRanks(c, s, step);
    case _ => CallRanks(c, s, step);
  }

  lemma MeasureFalls(c: Config, s: State, t: State, r: ReqId)
    requires RanksFall(s, t, r)
    ensures Measure(c, t) < Measure(c, s)
  {
    hide Rank;
    SumMono(s.reqs.Keys, w => ReqRank(t, w), w => ReqRank(s, w));
    assert ReqRank(t, r) < ReqRank(s, r);
    SumMono(s.purges.Keys, j => PurgeRank(c, t, j), j => PurgeRank(c, s, j));
  }

  lemma VisitFalls(c: Config, s: State, j: JobId)
    requires CanVisit(c, s, j)
    ensures Measure(c, DoVisit(c, s, j)) < Measure(c, s)
  {
    hide Rank, Visits, InScope;
    var t := DoVisit(c, s, j);
    SumMono(s.reqs.Keys, w => ReqRank(t, w), w => ReqRank(s, w));
    assert t.purges.Keys == s.purges.Keys;
    assert PurgeRank(c, t, j) < PurgeRank(c, s, j);
    SumMono(s.purges.Keys, x => PurgeRank(c, t, x), x => PurgeRank(c, s, x));
  }

  /** The clock, evictions and expiries give no request anything more to do. */
  lemma IdleKeeps(c: Config, s: State, step: Step)
    requires Enabled(c, s, step) && (step.Tick? || step.Drop?)
    ensures Measure(c, Apply(c, s, step)) <= Measure(c, s)
  {
    hide Rank, Visits;
    var t := Apply(c, s, step);
    SumMono(s.reqs.Keys, w => ReqRank(t, w), w => ReqRank(s, w));
    SumMono(s.purges.Keys, x => PurgeRank(c, t, x), x => PurgeRank(c, s, x));
  }

  lemma StepMeasure(c: Config, s: State, step: Step)
    requires Inv(c, s) && Enabled(c, s, step) && !step.Arrive? && !step.StartPurge?
    ensures Measure(c, Apply(c, s, step)) + (if IsWork(step) then 1 else 0) <= Measure(c, s)
  {
    hide Inv, RanksFall, Measure, DoVisit;
    if step.VisitCache? {
      VisitFalls(c, s, step.j);
    } else if IsWork(step) {
      WorkRanks(c, s, step);
      MeasureFalls(c, s, Apply(c, s, step), Actor(step));
    } else {
      IdleKeeps(c, s, step);
    }
  }

  /** How many of the steps from `i` on are work. */
  function WorkCount(steps: seq<Step>, i: nat, n: nat): nat
    requires i <= n <= |steps|
  {
    if i == n then 0 else WorkCount(steps, i, n - 1) + (if IsWork(steps[n - 1]) then 1 else 0)
  }

  /** Termination: once no new request or purge arrives, only so many steps of work are left as the measure
      says, whatever fails, expires or is evicted meanwhile. */
  lemma {:induction false} BoundedWork(c: Config, states: seq<State>, steps: seq<Step>, i: nat, n: nat)
    requires IsRun(c, states, steps) && i <= n < |states|
    requires forall m :: i <= m < n ==> !steps[m].Arrive? && !steps[m].StartPurge?
    ensures WorkCount(steps, i, n) + Measure(c, states[n]) <= Measure(c, states[i])
  {
    hide Inv, Measure, Enabled, Apply;
    if i < n {
      BoundedWork(c, states, steps, i, n - 1);
      RunInv(c, states, steps, n - 1);
      StepMeasure(c, states[n - 1], steps[n - 1]);
    }
  }

  /** When the measure is exhausted every request has been answered. */
  lemma ExhaustedIsDone(c: Config, s: State, r: ReqId)
    requires Measure(c, s) == 0 && r in s.reqs
    ensures s.reqs[r].status.Done?
  {
    SumMember(s.reqs.Keys, w => ReqRank(s, w), r);
  }

  // ---------- one evaluation per call ----------

  /** A cache call of a request: its own of one of the three stages, or the one its evaluation there makes to
      the identity service. */
  datatype CallSite = CallSite(stage: nat, inPds: bool)

  function SiteOf(q: Req): CallSite
    requires q.status.Active?
  {
    var stage := match q.status.stage { case PolicyCheck => 0 case DataFetch(_) => 1 case OwnerCheck(_, _, _) => 2 };
    CallSite(stage, InPds(q.status.point))
  }

  lemma OutsideKeepsReqs(c: Config, s: State, step: Step, r: ReqId)
    requires Enabled(c, s, step) && r in s.reqs && (!IsWork(step) || step.VisitCache?)
    ensures var t := Apply(c, s, step); r in t.reqs && t.reqs[r] == s.reqs[r]
  {
    hide Visits, InScope;
  }

  /** No step gives a request anything more to do. */
  lemma {:induction false} RankKept(c: Config, states: seq<State>, steps: seq<Step>, i: nat, j: nat, r: ReqId)
    requires IsRun(c, states, steps) && i <= j < |states| && r in states[i].reqs
    ensures r in states[j].reqs && Rank(states[j].reqs[r]) <= Rank(states[i].reqs[r])
  {
    hide Inv, Rank, Enabled, Apply;
    if i < j {
      RankKept(c, states, steps, i, j - 1, r);
      var s, step := states[j - 1], steps[j - 1];
      if IsWork(step) && !step.VisitCache? {
        RunInv(c, states, steps, j - 1);
        WorkRanks(c, s, step);
      } else {
        OutsideKeepsReqs(c, s, step, r);
      }
    }
  }

  lemma LeadLowers(c: Config, s: State, r: ReqId)
    requires Enabled(c, s, Lead(r))
    ensures r in s.reqs && s.reqs[r].status.Active?
    ensures var t := Apply(c, s, Lead(r));
            && r in t.reqs
            && forall q: Req :: q.status.Active? && (Asks(q) || Waiting(q)) && SiteOf(q) == SiteOf(s.reqs[r])
                 ==> Rank(q) > Rank(t.reqs[r])
  {
    hide Hits, Without;
  }

  lemma LeadLooks(c: Config, s: State, r: ReqId)
    requires Enabled(c, s, Lead(r))
    ensures r in s.reqs && s.reqs[r].status.Active? && (Asks(s.reqs[r]) || Waiting(s.reqs[r]))
  {
  }

  /** A caller leads at most one evaluation per cache call, whoever else fails or is cancelled. */
  lemma LeadsOncePerCall(c: Config, states: seq<State>, steps: seq<Step>, i: nat, j: nat, r: ReqId)
    requires IsRun(c, states, steps) && i < j < |steps| && steps[i] == Lead(r) && steps[j] == Lead(r)
    ensures r in states[i].reqs && states[i].reqs[r].status.Active?
    ensures r in states[j].reqs && states[j].reqs[r].status.Active?
    ensures SiteOf(states[i].reqs[r]) != SiteOf(states[j].reqs[r])
  {
    hide Rank, Enabled, Apply, SiteOf, Asks, Waiting;
    LeadLowers(c, states[i], r);
    RankKept(c, states, steps, i + 1, j, r);
    LeadLooks(c, states[j], r);
  }

  // ---------- replies and cost ----------

  lemma DoneIsLeftAlone(c: Config, s: State, step: Step, r: ReqId)
    requires step.Store? || step.Break? || step.Hit? || step.Lead?
    requires Enabled(c, s, step) && r in s.reqs && s.reqs[r].status.Done?
    ensures var t := Apply(c, s, step); r in t.reqs && t.reqs[r] == s.reqs[r]
  {
    hide Deliver, Reject, Led, Hits, Without, StoredValue, StoredSince, BrokenSince, FaultOf, Logged;
  }

  /** A reply, once given, stands. */
  lemma ReplyStands(c: Config, s: State, step: Step, r: ReqId)
    requires Enabled(c, s, step) && r in s.reqs && s.reqs[r].status.Done?
    ensures var t := Apply(c, s, step); r in t.reqs && t.reqs[r] == s.reqs[r]
  {
    hide Hits, Accept, Downloaded, Panics, Ends, Stamp, Logged, Without, InScope, Visits, DoStore,
      DoBreak, DoHit, DoLead;
    if step.Store? || step.Break? || step.Hit? || step.Lead? {
      DoneIsLeftAlone(c, s, step, r);
    }
  }

  /** A request makes at most two requests to origins. */
  lemma OriginCost(c: Config, states: seq<State>, steps: seq<Step>, i: nat, r: ReqId)
    requires IsRun(c, states, steps) && i < |states| && r in states[i].reqs
    ensures states[i].reqs[r].origin <= 2
  {
    hide IsRun, LogOk, CacheInv, FlightInv, HistoryInv, StageOk, PointOk, ReplyOk;
    RunInv(c, states, steps, i);
    assert ReqOk(c, states[i].log, states[i].now, r, states[i].reqs[r]);
  }
}
