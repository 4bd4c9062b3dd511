/** What is in flight, seen from outside: the evaluations open in the log are exactly those in flight. So whether a
    purge was overlapped can be read off the evaluations running at its first visit and those begun before its
    last. */
module Flights {
  import opened BlobRules
  import opened Protocol
  import opened Invariants
  import opened Completion
  import opened Guarantees
  import opened Purging
  import opened Progress
  import opened OriginCosts

  // ---------- what is open in the log is in flight ----------

  /** The request is running the evaluation of `k` begun at `b`. */
  predicate Runs(q: Req, k: Key, b: Index) {
    && q.status.Active? && q.status.point.Run?
    && (|| (k == StageKey(q, q.status.stage) && q.status.point.since == b)
        || ((q.status.point.job.QueryPds? || q.status.point.job.KeepPds?)
            && k == PdsKey(q.did) && q.status.point.job.pdsSince == b))
  }

  /** An evaluation that has not ended. */
  predicate OpenAt(log: seq<Record>, b: nat) {
    b < |log| && log[b].what.Began? && Unended(log, b, |log|)
  }

  /** Every evaluation that has not ended is being run by its leader. */
  ghost predicate OpenInv(s: State) {
    forall b: nat :: OpenAt(s.log, b) ==>
      var began := s.log[b].what;
      began.leader in s.reqs && Runs(s.reqs[began.leader], began.key, b)
  }

  lemma DeliverRuns(q: Req, v: Value, ev: Index, now: Time, k: Key, b: Index)
    requires Runs(q, k, b)
    requires Asks(q) || Waiting(q) || q.status.point.job.Keep? || q.status.point.job.KeepPds?
    requires q.status.point.job.Keep? || q.status.point.job.KeepPds? ==> b != StoredSince(q)
    ensures Runs(Deliver(q, v, ev, now), k, b)
  {
  }

  lemma RejectRuns(c: Config, q: Req, fault: Fault, ev: Index, k: Key, b: Index)
    requires Runs(q, k, b)
    requires q.status.point.job.WaitPds? || q.status.point.job.Query? || q.status.point.job.QueryPds?
             || q.status.point.job.Broken?
    requires !q.status.point.job.WaitPds? ==> b != BrokenSince(q)
    ensures Runs(Reject(c, q, fault, ev), k, b)
  {
  }

  lemma LedRuns(q: Req, since: Index, k: Key, b: Index)
    requires Asks(q) || Waiting(q)
    ensures Runs(q, k, b) ==> Runs(Led(q, since), k, b)
    ensures Runs(Led(q, since), Target(q), since)
  {
  }

  /** A record that ends an evaluation is not yet there. */
  lemma NotEndedBy(log: seq<Record>, m: nat, b: nat)
    requires OpenAt(log, b) && m < |log|
    ensures !IsEndOf(log[m].what, b)
  {
  }

  lemma StoreRuns(c: Config, s: State, r: ReqId, l: ReqId, k: Key, b: Index)
    requires CanStore(c, s, r) && l in s.reqs && Runs(s.reqs[l], k, b) && OpenAt(DoStore(c, s, r).log, b)
    ensures Runs(DoStore(c, s, r).reqs[l], k, b)
  {
    hide Runs, Deliver, StoredSince, OpenAt;
    NotEndedBy(DoStore(c, s, r).log, |s.log|, b);
    var job := JobOf(s, r);
    if Receives(c, s, r, Target(s.reqs[r]), l) {
      RunningPoint(s.reqs[l], k, b);
      DeliverRuns(s.reqs[l], StoredValue(job), job.ev, s.now, k, b);
    }
  }

  lemma RunningPoint(q: Req, k: Key, b: Index)
    requires Runs(q, k, b)
    ensures q.status.Active? && q.status.point.Run?
    ensures Waiting(q) ==> q.status.point.job.WaitPds?
  {
  }

  lemma BreakRuns(c: Config, s: State, r: ReqId, sharers: set<ReqId>, l: ReqId, k: Key, b: Index)
    requires CanBreak(c, s, r, sharers) && l in s.reqs && Runs(s.reqs[l], k, b)
    requires OpenAt(DoBreak(c, s, r, sharers).log, b)
    ensures Runs(DoBreak(c, s, r, sharers).reqs[l], k, b)
  {
    hide Runs, Reject, BrokenSince, OpenAt;
    NotEndedBy(DoBreak(c, s, r, sharers).log, |s.log|, b);
    if l == r || l in sharers {
      RunningPoint(s.reqs[l], k, b);
      RejectRuns(c, s.reqs[l], FaultOf(JobOf(s, r)), |s.log|, k, b);
    }
  }

  lemma HitRuns(c: Config, s: State, r: ReqId, k: Key, b: Index)
    requires CanHit(c, s, r) && Runs(s.reqs[r], k, b)
    ensures Runs(DoHit(c, s, r).reqs[r], k, b)
  {
    hide Runs, Deliver;
    var e := s.cache[Target(s.reqs[r])];
    RunningPoint(s.reqs[r], k, b);
    DeliverRuns(s.reqs[r], e.value, e.ev, s.now, k, b);
  }

  lemma LeadRuns(c: Config, s: State, r: ReqId, k: Key, b: Index)
    requires CanLead(c, s, r) && Runs(s.reqs[r], k, b)
    ensures Runs(DoLead(c, s, r).reqs[r], k, b)
  {
    hide Runs, Led, Hits, Without;
    LedRuns(s.reqs[r], |DoLead(c, s, r).log| - 1, k, b);
  }

  /** A cancellation ends all its request runs. */
  lemma CancelEnds(c: Config, s: State, r: ReqId, k: Key, b: Index)
    requires CanCancel(s, r) && Runs(s.reqs[r], k, b)
    ensures !OpenAt(DoCancel(c, s, r).log, b)
  {
    var t := DoCancel(c, s, r);
    var ends := Ends(s.reqs[r]);
    assert IsEndOf(ends[0], b) || (|ends| == 2 && IsEndOf(ends[1], b));
    assert t.log[|s.log|].what == ends[0];
    assert |ends| == 2 ==> t.log[|s.log| + 1].what == ends[1];
  }

  /** The next job is one of the same evaluations. */
  lemma NextJobRuns(s: State, t: State, r: ReqId, job: Job, k: Key, b: Index)
    requires r in s.reqs && Runs(s.reqs[r], k, b) && t.reqs == WithJob(s, r, job)
    requires var was := JobOf(s, r);
             was.QueryPds? || was.KeepPds? ==> job.KeepPds? && job.pdsSince == was.pdsSince
    ensures r in t.reqs && Runs(t.reqs[r], k, b)
  {
  }

  lemma JobRuns(c: Config, s: State, step: Step, k: Key, b: Index)
    requires step.PolicyReply? || step.PdsReply? || step.OriginReply? || step.BodyRead? || step.Verify?
    requires Enabled(c, s, step) && step.r in s.reqs && Runs(s.reqs[step.r], k, b)
    ensures step.r in Apply(c, s, step).reqs && Runs(Apply(c, s, step).reqs[step.r], k, b)
  {
    hide Runs, Downloaded, Panics, Accept, Logged;
    var t := Apply(c, s, step);
    NextJobRuns(s, t, step.r, t.reqs[step.r].status.point.job, k, b);
  }

  lemma CallRuns(c: Config, s: State, step: Step, k: Key, b: Index)
    requires step.Join? || step.SkipPolicy?
    requires Enabled(c, s, step) && step.r in s.reqs && Runs(s.reqs[step.r], k, b)
    ensures step.r in Apply(c, s, step).reqs && Runs(Apply(c, s, step).reqs[step.r], k, b)
  {
    hide Hits;
  }

  /** An evaluation that a step does not end goes on. */
  lemma StillRuns(c: Config, s: State, step: Step, l: ReqId, k: Key, b: Index)
    requires Enabled(c, s, step) && l in s.reqs && Runs(s.reqs[l], k, b) && OpenAt(Apply(c, s, step).log, b)
    ensures l in Apply(c, s, step).reqs && Runs(Apply(c, s, step).reqs[l], k, b)
  {
    hide Runs, OpenAt, DoHit, DoJoin, DoLead, DoPolicyReply, DoPdsReply, DoOriginReply, DoBodyRead, DoVerify, DoStore,
      DoBreak, DoCancel, DoVisit, DoArrive, DoDrop, DoSkip;
    if !IsWork(step) || step.VisitCache? {
      OutsideKeepsReqs(c, s, step, l);
    } else if step.Store? {
      StoreRuns(c, s, step.r, l, k, b);
      KeysStay(c, s, step, l);
    } else if step.Break? {
      BreakRuns(c, s, step.r, step.sharers, l, k, b);
      KeysStay(c, s, step, l);
    } else if Actor(step) != l {
      OthersStay(c, s, step, l);
    } else {
      OwnStepRuns(c, s, step, k, b);
    }
  }

  lemma KeysStay(c: Config, s: State, step: Step, l: ReqId)
    requires Enabled(c, s, step) && l in s.reqs
    ensures l in Apply(c, s, step).reqs
  {
    hide Enabled, Apply;
    RequestsStay(c, s, step, l);
  }

  lemma OwnStepRuns(c: Config, s: State, step: Step, k: Key, b: Index)
    requires Enabled(c, s, step) && IsWork(step) && !step.VisitCache? && !step.Store? && !step.Break?
    requires Actor(step) in s.reqs && Runs(s.reqs[Actor(step)], k, b) && OpenAt(Apply(c, s, step).log, b)
    ensures Actor(step) in Apply(c, s, step).reqs && Runs(Apply(c, s, step).reqs[Actor(step)], k, b)
  {
    hide Runs, OpenAt, DoHit, DoJoin, DoLead, DoPolicyReply, DoPdsReply, DoOriginReply, DoBodyRead, DoVerify,
      DoCancel, DoSkip;
    KeysStay(c, s, step, Actor(step));
    match step
    case Hit(r) => HitRuns(c, s, r, k, b);
    case Lead(r) => LeadRuns(c, s, r, k, b);
    case Cancel(r) => CancelEnds(c, s, r, k, b);
    case Join(_) => CallRuns(c, s, step, k, b);
    case SkipPolicy(_) => CallRuns(c, s, step, k, b);
    case _ => JobRuns(c, s, step, k, b);
  }

  /** An evaluation just begun is run by its leader. */
  lemma BegunRuns(c: Config, s: State, step: Step, b: nat)
    requires Enabled(c, s, step) && |s.log| <= b < |Apply(c, s, step).log| && Apply(c, s, step).log[b].what.Began?
    ensures var t := Apply(c, s, step); var began := t.log[b].what;
            began.leader in t.reqs && Runs(t.reqs[began.leader], began.key, b)
  {
    hide Enabled, Apply, Runs, Led;
    var t := Apply(c, s, step);
    StepLog(c, s, step);
    assert Caused(c, step, s, t.log[b].what);
    StepKinds(c, s, step);
    LedRuns(s.reqs[step.r], |t.log| - 1, Target(s.reqs[step.r]), b);
  }

  lemma StepOpen(c: Config, s: State, step: Step)
    requires OpenInv(s) && Enabled(c, s, step)
    ensures OpenInv(Apply(c, s, step))
  {
    hide Enabled, Apply, Runs, Caused;
    var t := Apply(c, s, step);
    StepLog(c, s, step);
    forall b: nat | OpenAt(t.log, b)
      ensures t.log[b].what.leader in t.reqs && Runs(t.reqs[t.log[b].what.leader], t.log[b].what.key, b)
    {
      if b < |s.log| {
        assert t.log[b] == s.log[b];
        OpenBefore(s.log, t.log, b);
        StillRuns(c, s, step, s.log[b].what.leader, s.log[b].what.key, b);
      } else {
        BegunRuns(c, s, step, b);
      }
    }
  }

  lemma OpenBefore(log: seq<Record>, more: seq<Record>, b: nat)
    requires log <= more && b < |log| && OpenAt(more, b)
    ensures OpenAt(log, b)
  {
    UnendedGrows(log, more, b, |log|);
  }

  lemma {:induction false} RunOpen(c: Config, states: seq<State>, steps: seq<Step>, i: nat)
    requires IsRun(c, states, steps) && i < |states|
    ensures OpenInv(states[i])
  {
    hide Enabled, Apply, Runs;
    if i > 0 {
      RunOpen(c, states, steps, i - 1);
      StepOpen(c, states[i - 1], steps[i - 1]);
    }
  }

  /** The evaluation a leader of `k` runs is open in the log. */
  lemma LeaderIsOpen(c: Config, s: State, r: ReqId, k: Key) returns (b: nat)
    requires ReqInv(c, s) && r in s.reqs && Leads(s.reqs[r], k)
    ensures OpenAt(s.log, b) && s.log[b].what == Began(k, r, s.reqs[r].did)
  {
    hide StageOk, ReplyOk, Unended;
    assert ReqOk(c, s.log, s.now, r, s.reqs[r]);
    var point := s.reqs[r].status.point;
    b := if k == StageKey(s.reqs[r], s.reqs[r].status.stage) then point.since else point.job.pdsSince;
  }

  lemma RunsIsLeads(q: Req, k: Key, b: Index)
    requires Runs(q, k, b)
    ensures Leads(q, k)
  {
  }

  /** In every reachable state the evaluations open in the log are exactly those in flight, each once. */
  lemma OpenIffInFlight(c: Config, states: seq<State>, steps: seq<Step>, i: nat, k: Key, r: ReqId)
    requires IsRun(c, states, steps) && i < |states|
    ensures var s := states[i];
            (k in s.flight && s.flight[k] == r) <==>
            (exists b: nat :: OpenAt(s.log, b) && s.log[b].what.key == k && s.log[b].what.leader == r)
  {
    hide IsRun, LogOk, CacheInv, HistoryInv, ReqInv, Runs, Unended, Leads;
    var s := states[i];
    RunInv(c, states, steps, i);
    RunOpen(c, states, steps, i);
    if k in s.flight && s.flight[k] == r {
      var b := LeaderIsOpen(c, s, r, k);
    }
    if b: nat :| OpenAt(s.log, b) && s.log[b].what.key == k && s.log[b].what.leader == r {
      RunsIsLeads(s.reqs[r], k, b);
    }
  }

  // ---------- a purge, watched from outside ----------

  /** An evaluation of `k` led for `did` concerns the purge. */
  predicate Touches(scope: Scope, k: Key, did: Did) {
    match scope
    case OfActor(actor) => did == actor
    case OfBlob(_) => InScope(scope, k)
    case OfAll => true
  }

  /** No evaluation in flight concerns the purge. */
  predicate NoneInFlight(s: State, scope: Scope) {
    forall k :: k in s.flight && s.flight[k] in s.reqs ==> !Touches(scope, k, s.reqs[s.flight[k]].did)
  }

  /** The step does not begin an evaluation that concerns the purge. */
  predicate BeginsNone(s: State, step: Step, scope: Scope) {
    step.Lead? && step.r in s.reqs && s.reqs[step.r].status.Active? ==>
      !Touches(scope, Target(s.reqs[step.r]), s.reqs[step.r].did)
  }

  /** Step `n` is the visit number `v` of purge `j`. */
  predicate IsVisit(c: Config, states: seq<State>, steps: seq<Step>, j: JobId, n: nat, v: nat) {
    && n < |steps| && n < |states| && steps[n] == VisitCache(j)
    && j in states[n].purges && states[n].purges[j].visited == v
  }

  /** Step `n` is the last visit of purge `j`. */
  predicate IsLastVisit(c: Config, states: seq<State>, steps: seq<Step>, j: JobId, n: nat) {
    && n < |steps| && n < |states| && steps[n] == VisitCache(j) && j in states[n].purges
    && states[n].purges[j].visited + 1 == |Visits(c, states[n].purges[j].scope)|
  }

  lemma StepPurge(c: Config, s: State, step: Step, j: JobId)
    requires Enabled(c, s, step) && j in s.purges
    ensures var t := Apply(c, s, step);
            && j in t.purges && t.purges[j].scope == s.purges[j].scope
            && t.purges[j].visited == s.purges[j].visited + (if step == VisitCache(j) then 1 else 0)
  {
    hide DoHit, DoJoin, DoLead, DoPolicyReply, DoPdsReply, DoOriginReply, DoBodyRead, DoVerify, DoStore, DoBreak,
      DoCancel, DoArrive, DoDrop, DoSkip, Visits, InScope;
    if !step.StartPurge? && !step.VisitCache? {
      PurgesUntouched(c, s, step);
    }
  }

  lemma {:induction false} PurgeGoesOn(c: Config, states: seq<State>, steps: seq<Step>, i: nat, k: nat, j: JobId)
    requires IsRun(c, states, steps) && i <= k < |states| && j in states[i].purges
    ensures j in states[k].purges && states[k].purges[j].scope == states[i].purges[j].scope
    ensures states[i].purges[j].visited <= states[k].purges[j].visited
    ensures i < k && steps[i] == VisitCache(j) ==> states[i].purges[j].visited < states[k].purges[j].visited
    decreases k - i
  {
    hide Enabled, Apply;
    if i < k {
      StepPurge(c, states[i], steps[i], j);
      PurgeGoesOn(c, states, steps, i + 1, k, j);
    }
  }

  lemma VisitsDiffer(c: Config, scope: Scope, n: nat, m: nat)
    requires n < |Visits(c, scope)| && m < |Visits(c, scope)| && Visits(c, scope)[n] == Visits(c, scope)[m]
    ensures n == m
  {
  }

  /** The trace of a purge has its `v`-th visit where that visit was made. */
  lemma TraceIsVisit(c: Config, states: seq<State>, steps: seq<Step>, i: nat, j: JobId, at: seq<Index>, n: nat, v: nat)
    requires IsRun(c, states, steps) && n < i < |states|
    requires Finished(c, states[i], j, at) && v < |at| && IsVisit(c, states, steps, j, n, v)
    ensures at[v] == |states[n].log| && states[n].purges[j].scope == states[i].purges[j].scope
  {
    hide Enabled, Apply, Visits;
    PurgeGoesOn(c, states, steps, n, i, j);
    VisitInside(c, states[i], j, at, v);
    var m := RecordHasCause(c, states, steps, i, at[v]);
    assert Caused(c, steps[m], states[m], states[i].log[at[v]].what);
    PurgeGoesOn(c, states, steps, m, i, j);
    VisitsDiffer(c, states[i].purges[j].scope, v, states[m].purges[j].visited);
    if m < n {
      PurgeGoesOn(c, states, steps, m, n, j);
    } else if n < m {
      PurgeGoesOn(c, states, steps, n, m, j);
    }
    VisitLogsOne(c, states[n], j);
  }

  lemma VisitLogsOne(c: Config, s: State, j: JobId)
    requires Enabled(c, s, VisitCache(j))
    ensures |Apply(c, s, VisitCache(j)).log| == |s.log| + 1
  {
    hide Visits, InScope;
  }

  /** The leader on record for an open evaluation leads it for the actor on record. */
  lemma OpenLeader(c: Config, s: State, b: nat)
    requires Inv(c, s) && OpenInv(s) && OpenAt(s.log, b)
    ensures var began := s.log[b].what;
            && began.key in s.flight && s.flight[began.key] == began.leader
            && began.leader in s.reqs && s.reqs[began.leader].did == began.did
  {
    hide LogOk, CacheInv, HistoryInv, Unended, StageOk, ReplyOk;
    var began := s.log[b].what;
    RunsIsLeads(s.reqs[began.leader], began.key, b);
    assert ReqOk(c, s.log, s.now, began.leader, s.reqs[began.leader]);
  }

  /** A purge at whose first visit nothing that concerns it is in flight, and until whose last visit nothing that
      concerns it is begun, is quiet. */
  lemma WatchedIsQuiet(c: Config, states: seq<State>, steps: seq<Step>, i: nat, scope: Scope, first: nat, last: nat)
    requires IsRun(c, states, steps) && first <= last < i < |states|
    requires NoneInFlight(states[first], scope) && steps[first].VisitCache?
    requires forall m :: first < m < last ==> BeginsNone(states[m], steps[m], scope)
    ensures Quiet(states[i].log, scope, |states[first].log|, |states[last].log|)
  {
    hide Enabled, Apply, Inv, OpenInv, NoneInFlight, InScope;
    var log := states[i].log;
    RunInv(c, states, steps, first);
    RunOpen(c, states, steps, first);
    LogIsKept(c, states, steps, first, i);
    forall b: nat | b < |states[last].log| && b < |log| && Concerns(scope, log[b].what)
      ensures !Unended(log, b, |states[first].log|)
    {
      if b < |states[first].log| {
        NotInFlight(c, states[first], scope, log, b);
      } else {
        NotBegun(c, states, steps, i, scope, first, last, b);
      }
    }
  }

  lemma NotInFlight(c: Config, s: State, scope: Scope, log: seq<Record>, b: nat)
    requires Inv(c, s) && OpenInv(s) && NoneInFlight(s, scope)
    requires s.log <= log && b < |s.log| && Concerns(scope, log[b].what)
    ensures !Unended(log, b, |s.log|)
  {
    hide Inv, OpenInv, Unended, InScope;
    assert log[b] == s.log[b];
    UnendedGrows(s.log, log, b, |s.log|);
    if OpenAt(s.log, b) {
      OpenLeader(c, s, b);
    }
  }

  lemma NotBegun(c: Config, states: seq<State>, steps: seq<Step>, i: nat, scope: Scope, first: nat, last: nat, b: nat)
    requires IsRun(c, states, steps) && first <= last < i < |states| && steps[first].VisitCache?
    requires forall m :: first < m < last ==> BeginsNone(states[m], steps[m], scope)
    requires |states[first].log| <= b < |states[last].log| && b < |states[i].log|
    ensures !Concerns(scope, states[i].log[b].what)
  {
    hide Enabled, Apply, InScope;
    var m := RecordHasCause(c, states, steps, i, b);
    assert Caused(c, steps[m], states[m], states[i].log[b].what);
    if m < first {
      LogIsKept(c, states, steps, m + 1, first);
    } else if m >= last {
      LogIsKept(c, states, steps, last, m);
    }
  }

  lemma {:induction false} ArrivedLater(c: Config, states: seq<State>, steps: seq<Step>, n: nat, i: nat, r: ReqId)
    requires IsRun(c, states, steps) && n <= i < |states| && r !in states[n].reqs && r in states[i].reqs
    ensures states[i].reqs[r].born >= |states[n].log|
  {
    hide Enabled, Apply;
    if r !in states[i - 1].reqs {
      NewRequests(c, states[i - 1], steps[i - 1], r);
      StepKinds(c, states[i - 1], steps[i - 1]);
      LogIsKept(c, states, steps, n, i - 1);
    } else {
      ArrivedLater(c, states, steps, n, i - 1, r);
      BornStays(c, states[i - 1], steps[i - 1], r);
    }
  }

  lemma BornStays(c: Config, s: State, step: Step, r: ReqId)
    requires Enabled(c, s, step) && r in s.reqs
    ensures r in Apply(c, s, step).reqs && Apply(c, s, step).reqs[r].born == s.reqs[r].born
  {
    hide Enabled, Apply;
    RequestsStay(c, s, step, r);
  }

  /** Purge freshness in terms of what can be watched. If at the first visit of a purge no evaluation that concerns
      it was in flight, and none was begun until its last visit, then every blob served to a request that arrived
      after the last visit rests, in each cache the purge visited, on an evaluation begun after the purge. */
  lemma WatchedPurgeIsFresh(c: Config, states: seq<State>, steps: seq<Step>, i: nat, r: ReqId, j: JobId,
                            first: nat, last: nat)
    requires IsRun(c, states, steps) && first <= last < i < |states|
    requires IsVisit(c, states, steps, j, first, 0)
    requires IsLastVisit(c, states, steps, j, last)
    requires var scope := states[first].purges[j].scope;
             && NoneInFlight(states[first], scope)
             && forall m :: first < m < last ==> BeginsNone(states[m], steps[m], scope)
    requires r !in states[last + 1].reqs && WasServed(states[i], r)
    requires Applies(states[first].purges[j].scope, states[i].reqs[r])
    ensures forall name :: name in Visits(c, states[first].purges[j].scope) ==>
              NewerThan(states[i].log, ReplyOf(states[i], r), name, |states[last].log|)
  {
    hide Enabled, Apply, NoneInFlight, BeginsNone, Visits, NewerThan, Quiet, Applies, IsTrace;
    PurgeGoesOn(c, states, steps, first, last, j);
    PurgeGoesOn(c, states, steps, last, i, j);
    AllVisited(c, states, steps, i, j, last);
    var at := FinishedHasTrace(c, states, steps, i, j);
    TraceLength(c, states[i], j, at);
    TraceIsVisit(c, states, steps, i, j, at, first, 0);
    TraceIsVisit(c, states, steps, i, j, at, last, |at| - 1);
    WatchedIsQuiet(c, states, steps, i, states[first].purges[j].scope, first, last);
    ArrivedLater(c, states, steps, last + 1, i, r);
    VisitLogsOne(c, states[last], j);
    PurgeFreshness(c, states, steps, i, r, j, at);
  }

  lemma TraceLength(c: Config, s: State, j: JobId, at: seq<Index>)
    requires Finished(c, s, j, at)
    ensures |at| == |Visits(c, s.purges[j].scope)|
  {
    hide Visits;
  }

  /** After its last visit a purge is over. */
  lemma AllVisited(c: Config, states: seq<State>, steps: seq<Step>, i: nat, j: JobId, last: nat)
    requires IsRun(c, states, steps) && last < i < |states|
    requires IsLastVisit(c, states, steps, j, last)
    ensures j in states[i].purges && states[i].purges[j].visited == |Visits(c, states[i].purges[j].scope)|
  {
    hide Enabled, Apply, Visits, IsTrace;
    PurgeGoesOn(c, states, steps, last, i, j);
    RunTraced(c, states, steps, i);
    var at: seq<Index> :| IsTrace(c, states[i].log, j, states[i].purges[j], at);
    TraceBound(c, states[i].log, j, states[i].purges[j], at);
  }

  lemma TraceBound(c: Config, log: seq<Record>, j: JobId, p: Purge, at: seq<Index>)
    requires IsTrace(c, log, j, p, at)
    ensures p.visited <= |Visits(c, p.scope)|
  {
    hide Visits;
  }
}
