/** Purges: what they remove at once, and what can be served once they are over. */
module Purging {
  import opened Wrappers
  import opened BlobRules
  import opened Protocol
  import opened Invariants
  import opened Completion
  import opened Guarantees

  // ---------- the trace a purge leaves ----------

  /** The log positions of the visits a purge has made, in its order. */
  predicate IsTrace(c: Config, log: seq<Record>, j: JobId, p: Purge, at: seq<Index>) {
    && |at| == p.visited <= |Visits(c, p.scope)|
    && (forall m, n :: 0 <= m < n < |at| ==> at[m] < at[n])
    && (forall n :: 0 <= n < |at| ==>
          at[n] < |log| && log[at[n]].what == Purged(Visits(c, p.scope)[n], p.scope, j))
  }

  ghost predicate Traced(c: Config, s: State) {
    forall j :: j in s.purges ==> exists at: seq<Index> :: IsTrace(c, s.log, j, s.purges[j], at)
  }

  lemma TraceGrows(c: Config, log: seq<Record>, more: seq<Record>, j: JobId, p: Purge, at: seq<Index>)
    requires IsTrace(c, log, j, p, at) && log <= more
    ensures IsTrace(c, more, j, p, at)
  {
    hide Visits;
  }

  lemma TracedGrows(c: Config, s: State, t: State)
    requires Traced(c, s) && s.log <= t.log && t.purges == s.purges
    ensures Traced(c, t)
  {
    hide IsTrace;
    forall j | j in t.purges
      ensures exists at: seq<Index> :: IsTrace(c, t.log, j, t.purges[j], at)
    {
      var at: seq<Index> :| IsTrace(c, s.log, j, s.purges[j], at);
      TraceGrows(c, s.log, t.log, j, s.purges[j], at);
    }
  }

  lemma VisitTraced(c: Config, s: State, j: JobId)
    requires Traced(c, s) && CanVisit(c, s, j)
    ensures Traced(c, DoVisit(c, s, j))
  {
    hide Visits, InScope;
    var t := DoVisit(c, s, j);
    forall x | x in t.purges
      ensures exists at: seq<Index> :: IsTrace(c, t.log, x, t.purges[x], at)
    {
      var at: seq<Index> :| IsTrace(c, s.log, x, s.purges[x], at);
      TraceGrows(c, s.log, t.log, x, s.purges[x], at);
      if x == j {
        assert IsTrace(c, t.log, j, t.purges[j], at + [|s.log|]);
      }
    }
  }

  lemma StartTraced(c: Config, s: State, j: JobId, scope: Scope)
    requires Traced(c, s) && j !in s.purges
    ensures Traced(c, s.(purges := s.purges[j := Purge(scope, 0)]))
  {
    var t := s.(purges := s.purges[j := Purge(scope, 0)]);
    forall x | x in t.purges
      ensures exists at: seq<Index> :: IsTrace(c, t.log, x, t.purges[x], at)
    {
      if x == j {
        assert IsTrace(c, t.log, j, t.purges[j], []);
      } else {
        var at: seq<Index> :| IsTrace(c, s.log, x, s.purges[x], at);
      }
    }
  }

  lemma PurgesUntouched(c: Config, s: State, step: Step)
    requires Enabled(c, s, step) && !step.StartPurge? && !step.VisitCache?
    ensures Apply(c, s, step).purges == s.purges
  {
    hide Deliver, Reject, Led, Accept, Downloaded, Target, InPds, Receives, Hits, Looks, Asks, Waiting, WaitsFor,
      InScope,
      WithJob, WithStatus, Without, StoredValue, StoredSince, BrokenSince, FaultOf;
  }

  lemma {:induction false} RunTraced(c: Config, states: seq<State>, steps: seq<Step>, i: nat)
    requires IsRun(c, states, steps) && i < |states|
    ensures Traced(c, states[i])
  {
    hide Enabled, Apply, IsTrace;
    if i > 0 {
      var s, step := states[i - 1], steps[i - 1];
      RunTraced(c, states, steps, i - 1);
      match step
      case StartPurge(j, scope) => StepIsStart(c, s, j, scope); StartTraced(c, s, j, scope);
      case VisitCache(j) => StepIsVisit(c, s, j); VisitTraced(c, s, j);
      case _ =>
        StepLog(c, s, step);
        PurgesUntouched(c, s, step);
        TracedGrows(c, s, states[i]);
    }
  }

  lemma StepIsStart(c: Config, s: State, j: JobId, scope: Scope)
    requires Enabled(c, s, StartPurge(j, scope))
    ensures j !in s.purges && Apply(c, s, StartPurge(j, scope)) == s.(purges := s.purges[j := Purge(scope, 0)])
  {
  }

  lemma StepIsVisit(c: Config, s: State, j: JobId)
    requires Enabled(c, s, VisitCache(j))
    ensures CanVisit(c, s, j) && Apply(c, s, VisitCache(j)) == DoVisit(c, s, j)
  {
  }

  /** A visit removes every entry in scope from the visited cache and touches nothing else: the other caches,
      other actors and other blobs keep theirs. */
  lemma VisitFrame(c: Config, s: State, j: JobId, k: Key)
    requires CanVisit(c, s, j) && k in s.cache
    ensures var scope := s.purges[j].scope; var name := Visits(c, scope)[s.purges[j].visited];
            var t := DoVisit(c, s, j);
            && (k in t.cache <==> CacheOf(k) != name || !InScope(scope, k))
            && (k in t.cache ==> t.cache[k] == s.cache[k])
            && (scope.OfActor? && (k.DataKey? || k.did != scope.did) ==> k in t.cache)
            && (scope.OfBlob? && (k.PdsKey? || k.cid != scope.cid) ==> k in t.cache)
    ensures var t := DoVisit(c, s, j); t.reqs == s.reqs && t.flight == s.flight
  {
  }

  // ---------- freshness ----------

  /** The evaluations a purge must not overlap: those begun for the actor, or of a key of the blob. */
  predicate Concerns(scope: Scope, what: Event) {
    what.Began? &&
    match scope
    case OfActor(did) => what.did == did
    case OfBlob(_) => InScope(scope, what.key)
    case OfAll => true
  }

  /** No evaluation that concerns the purge was running at any time from its first to its last visit. */
  predicate Quiet(log: seq<Record>, scope: Scope, first: Index, last: Index) {
    forall i: nat :: i < last && i < |log| && Concerns(scope, log[i].what) ==> !Unended(log, i, first)
  }

  /** The purge is over, and its visits are at `at`. */
  predicate Finished(c: Config, s: State, j: JobId, at: seq<Index>) {
    j in s.purges && s.purges[j].visited == |Visits(c, s.purges[j].scope)| && IsTrace(c, s.log, j, s.purges[j], at)
  }

  predicate Applies(scope: Scope, q: Req) {
    match scope
    case OfActor(did) => q.did == did
    case OfBlob(cid) => q.cid == cid
    case OfAll => true
  }

  /** The evaluation begun at `since` was running at `p`. */
  predicate RunningAt(log: seq<Record>, since: Index, p: Index) {
    since < p && Unended(log, since, p)
  }

  /** The evaluation that gave a reply what it took from one of the caches, or had stored there for it. A request
      that passed without a policy client rests on no policy evaluation. */
  function EvidenceSince(log: seq<Record>, a: Reply, name: CacheName): Option<Index>
    requires a.Served?
  {
    match name
    case PolicyCache =>
      (match a.pass
       case NoClient => None
       case AllowedAt(ev) => Some(Since(log, ev))
       case FailedOpen(ev) => Some(if ev < |log| && log[ev].what.Errored? then log[ev].what.since else 0))
    case IdentityCache =>
      Some(if a.ownerEv < |log| && log[a.ownerEv].what.OriginSaid? then Since(log, log[a.ownerEv].what.pds) else 0)
    case DataCache => Some(Since(log, a.dataEv))
    case OwnershipCache => Some(Since(log, a.ownerEv))
  }

  /** What the reply rests on there was begun after `p`. */
  predicate NewerThan(log: seq<Record>, a: Reply, name: CacheName, p: Index)
    requires a.Served?
  {
    var since := EvidenceSince(log, a, name);
    since.Some? ==> p < since.value
  }

  /** What the reply rests on there was being evaluated at `p`. */
  predicate OverlapsAt(log: seq<Record>, a: Reply, name: CacheName, p: Index)
    requires a.Served?
  {
    var since := EvidenceSince(log, a, name);
    since.Some? && RunningAt(log, since.value, p)
  }

  function KeyIn(q: Req, name: CacheName): Key {
    match name
    case PolicyCache => PolicyKey(q.did, q.cid)
    case IdentityCache => PdsKey(q.did)
    case DataCache => DataKey(q.cid)
    case OwnershipCache => OwnerKey(q.cid, q.did)
  }

  /** Until when evidence is known to have outlived the purges of its key: the arrival of the request, or for
      the endpoint the start of the evaluation that used it. */
  function Horizon(log: seq<Record>, q: Req, a: Reply, name: CacheName): nat
    requires a.Served?
  {
    if name == IdentityCache then Since(log, a.ownerEv) else q.born
  }

  lemma EvidenceOutlives(c: Config, s: State, r: ReqId, name: CacheName)
    requires Inv(c, s) && WasServed(s, r) && EvidenceSince(s.log, ReplyOf(s, r), name).Some?
    ensures var q, a := s.reqs[r], ReplyOf(s, r); var since := EvidenceSince(s.log, a, name).value;
            && since < |s.log| && s.log[since].what.Began?
            && Outlives(s.log, since, Horizon(s.log, q, a, name), KeyIn(q, name))
            && (name == DataCache || s.log[since].what.did == q.did)
            && (name == IdentityCache || InScope(OfBlob(q.cid), s.log[since].what.key))
  {
    hide CacheInv, FlightInv, HistoryInv, ReqInv, Genuine, Unended, Outlives;
    var q, a := s.reqs[r], ReplyOf(s, r);
    ServedFacts(c, s, r);
    match name
    case PolicyCache => PolicyOutlives(c, s, q, a.pass);
    case IdentityCache => OriginRecord(s.log, s.now, a.ownerEv); assert RecordOk(s.log, s.log[a.ownerEv].what.pds);
    case DataCache => assert RecordOk(s.log, a.dataEv);
    case OwnershipCache => assert RecordOk(s.log, a.ownerEv);
  }

  lemma PolicyOutlives(c: Config, s: State, q: Req, pass: Pass)
    requires LogOk(s.log, s.now) && PassOk(c, s.log, q, pass) && !pass.NoClient?
    ensures var since := if pass.AllowedAt? then Since(s.log, pass.ev) else s.log[pass.ev].what.since;
            && since < |s.log| && s.log[since].what.Began? && s.log[since].what.key == PolicyKey(q.did, q.cid)
            && s.log[since].what.did == q.did
            && Outlives(s.log, since, q.born, PolicyKey(q.did, q.cid))
  {
    assert RecordOk(s.log, pass.ev);
    if pass.FailedOpen? {
      assert RecordOk(s.log, s.log[pass.ev].what.since);
    }
  }

  /** Evidence is older than a purge of its key exactly when its evaluation was running at that very visit. */
  lemma StaleIffRunning(log: seq<Record>, since: Index, p: Index, n: nat, k: Key)
    requires since < |log| && log[since].what.Began? && Outlives(log, since, n, k)
    requires p < n && p < |log| && PurgesKey(log[p].what, k)
    ensures since <= p <==> RunningAt(log, since, p)
  {
  }

  /** Freshness at one visit, exactly. Whatever else ran or was purged before a request arrived, what its reply
      rests on in a cache is newer than a visit to that cache if and only if its evaluation was not running at
      the visit. The endpoint is judged by the visits before the evaluation that used it. */
  lemma VisitFreshIff(c: Config, states: seq<State>, steps: seq<Step>, i: nat, r: ReqId, p: Index)
    requires IsRun(c, states, steps) && i < |states| && WasServed(states[i], r)
    requires p < |states[i].log| && states[i].log[p].what.Purged?
    requires var s := states[i]; var q, a, visit := s.reqs[r], ReplyOf(s, r), s.log[p].what;
             InScope(visit.scope, KeyIn(q, visit.cache)) && p < Horizon(s.log, q, a, visit.cache)
    ensures var s := states[i]; var a, name := ReplyOf(s, r), s.log[p].what.cache;
            NewerThan(s.log, a, name, p) <==> !OverlapsAt(s.log, a, name, p)
  {
    hide IsRun, Inv, RunningAt, Outlives;
    var s := states[i];
    var q, a, name := s.reqs[r], ReplyOf(s, r), s.log[p].what.cache;
    RunInv(c, states, steps, i);
    if EvidenceSince(s.log, a, name).Some? {
      EvidenceOutlives(c, s, r, name);
      StaleIffRunning(s.log, EvidenceSince(s.log, a, name).value, p, Horizon(s.log, q, a, name), KeyIn(q, name));
    }
  }

  /** The visits of a finished purge lie in its interval, in the log. */
  lemma VisitInside(c: Config, s: State, j: JobId, at: seq<Index>, n: nat)
    requires Finished(c, s, j, at) && n < |at|
    ensures at[0] <= at[n] <= at[|at| - 1] && at[n] < |s.log|
    ensures s.log[at[n]].what == Purged(Visits(c, s.purges[j].scope)[n], s.purges[j].scope, j)
  {
    hide Visits;
  }

  lemma ScopeCovers(c: Config, scope: Scope, q: Req, name: CacheName)
    requires Applies(scope, q) && name in Visits(c, scope)
    ensures InScope(scope, KeyIn(q, name))
    ensures name == IdentityCache ==> OwnershipCache in Visits(c, scope)
  {
  }

  /** The identity cache is visited before the ownership cache. */
  lemma IdentityFirst(c: Config, scope: Scope, n: nat, m: nat)
    requires n < |Visits(c, scope)| && m < |Visits(c, scope)|
    requires Visits(c, scope)[n] == IdentityCache && Visits(c, scope)[m] == OwnershipCache
    ensures n < m
  {
  }

  predicate AllNewer(c: Config, log: seq<Record>, a: Reply, scope: Scope, at: seq<Index>)
    requires a.Served? && |at| == |Visits(c, scope)|
  {
    forall n :: 0 <= n < |at| ==> NewerThan(log, a, Visits(c, scope)[n], at[n])
  }

  predicate NoneOverlaps(c: Config, log: seq<Record>, a: Reply, scope: Scope, at: seq<Index>)
    requires a.Served? && |at| == |Visits(c, scope)|
  {
    forall n :: 0 <= n < |at| ==> !OverlapsAt(log, a, Visits(c, scope)[n], at[n])
  }

  lemma VisitOfPurge(c: Config, states: seq<State>, steps: seq<Step>, i: nat, r: ReqId,
                     j: JobId, at: seq<Index>, n: nat)
    requires IsRun(c, states, steps) && i < |states|
    requires WasServed(states[i], r) && Finished(c, states[i], j, at) && n < |at|
    requires Applies(states[i].purges[j].scope, states[i].reqs[r]) && at[|at| - 1] < states[i].reqs[r].born
    ensures var s := states[i]; var a := ReplyOf(s, r); var name := Visits(c, s.purges[j].scope)[n];
            && (OverlapsAt(s.log, a, name, at[n]) ==> !NewerThan(s.log, a, name, at[n]))
            && (name != IdentityCache || at[n] < Since(s.log, a.ownerEv) ==>
                  (NewerThan(s.log, a, name, at[n]) <==> !OverlapsAt(s.log, a, name, at[n])))
  {
    hide IsRun, NewerThan, OverlapsAt, Visits;
    var s := states[i];
    var q, a, scope := s.reqs[r], ReplyOf(s, r), s.purges[j].scope;
    var name := Visits(c, scope)[n];
    VisitInside(c, s, j, at, n);
    ScopeCovers(c, scope, q, name);
    OverlapIsOlder(s.log, a, name, at[n]);
    if name != IdentityCache || at[n] < Since(s.log, a.ownerEv) {
      VisitFreshIff(c, states, steps, i, r, at[n]);
    }
  }

  lemma OverlapIsOlder(log: seq<Record>, a: Reply, name: CacheName, p: Index)
    requires a.Served?
    ensures OverlapsAt(log, a, name, p) ==> !NewerThan(log, a, name, p)
  {
  }

  lemma OwnerNewer(log: seq<Record>, a: Reply, p: Index)
    requires a.Served?
    ensures NewerThan(log, a, OwnershipCache, p) <==> p < Since(log, a.ownerEv)
  {
  }

  /** Freshness of a whole purge, exactly. A reply to a request that arrived after the purge rests, in every
      cache the purge visited, on evaluations begun after the visit to it, if and only if none of these
      evaluations was running at that visit. */
  lemma PurgeFreshIff(c: Config, states: seq<State>, steps: seq<Step>, i: nat, r: ReqId, j: JobId, at: seq<Index>)
    requires IsRun(c, states, steps) && i < |states|
    requires WasServed(states[i], r) && Finished(c, states[i], j, at)
    requires Applies(states[i].purges[j].scope, states[i].reqs[r]) && at[|at| - 1] < states[i].reqs[r].born
    ensures var s := states[i]; var a, scope := ReplyOf(s, r), s.purges[j].scope;
            AllNewer(c, s.log, a, scope, at) <==> NoneOverlaps(c, s.log, a, scope, at)
  {
    hide IsRun, NewerThan, OverlapsAt, Visits, Applies;
    var s := states[i];
    var a, scope := ReplyOf(s, r), s.purges[j].scope;
    forall n: nat | n < |at|
      ensures OverlapsAt(s.log, a, Visits(c, scope)[n], at[n]) ==> !NewerThan(s.log, a, Visits(c, scope)[n], at[n])
    {
      VisitOfPurge(c, states, steps, i, r, j, at, n);
    }
    if NoneOverlaps(c, s.log, a, scope, at) {
      forall n: nat | n < |at|
        ensures NewerThan(s.log, a, Visits(c, scope)[n], at[n])
      {
        if Visits(c, scope)[n] == IdentityCache {
          EndpointIsLater(c, states, steps, i, r, j, at, n);
        }
        VisitOfPurge(c, states, steps, i, r, j, at, n);
      }
    }
  }

  /** When the ownership evidence is newer than its visit, the evaluation that used the endpoint is newer than
      the visit to the identity cache. */
  lemma EndpointIsLater(c: Config, states: seq<State>, steps: seq<Step>, i: nat, r: ReqId,
                        j: JobId, at: seq<Index>, n: nat)
    requires IsRun(c, states, steps) && i < |states|
    requires WasServed(states[i], r) && Finished(c, states[i], j, at) && n < |at|
    requires Applies(states[i].purges[j].scope, states[i].reqs[r]) && at[|at| - 1] < states[i].reqs[r].born
    requires Visits(c, states[i].purges[j].scope)[n] == IdentityCache
    requires NoneOverlaps(c, states[i].log, ReplyOf(states[i], r), states[i].purges[j].scope, at)
    ensures at[n] < Since(states[i].log, ReplyOf(states[i], r).ownerEv)
  {
    hide IsRun, NewerThan, OverlapsAt, Visits;
    var s := states[i];
    var a, scope := ReplyOf(s, r), s.purges[j].scope;
    ScopeCovers(c, scope, s.reqs[r], IdentityCache);
    var m: nat :| m < |Visits(c, scope)| && Visits(c, scope)[m] == OwnershipCache;
    IdentityFirst(c, scope, n, m);
    VisitOfPurge(c, states, steps, i, r, j, at, m);
    OwnerNewer(s.log, a, at[m]);
  }

  /** Nothing ends before it begins. */
  lemma UnendedBefore(log: seq<Record>, now: Time, since: Index, p: nat)
    requires LogOk(log, now) && p <= since
    ensures Unended(log, since, p)
  {
    forall m: nat | m < p && m < |log|
      ensures !IsEndOf(log[m].what, since)
    {
      assert RecordOk(log, m);
    }
  }

  lemma UnendedEarlier(log: seq<Record>, since: Index, p: nat, n: nat)
    requires p <= n
    ensures Unended(log, since, n) ==> Unended(log, since, p)
  {
  }

  /** A quiet purge overlaps nothing a later reply rests on, and what is newer than one visit is newer than all. */
  lemma QuietVisit(c: Config, s: State, r: ReqId, j: JobId, at: seq<Index>, n: nat)
    requires Inv(c, s) && WasServed(s, r) && Finished(c, s, j, at) && n < |at|
    requires Applies(s.purges[j].scope, s.reqs[r]) && Quiet(s.log, s.purges[j].scope, at[0], at[|at| - 1])
    ensures var a := ReplyOf(s, r); var name := Visits(c, s.purges[j].scope)[n];
            && !OverlapsAt(s.log, a, name, at[n])
            && (NewerThan(s.log, a, name, at[n]) ==> NewerThan(s.log, a, name, at[|at| - 1]))
  {
    hide CacheInv, FlightInv, HistoryInv, ReqInv, Visits, Outlives;
    var a, scope := ReplyOf(s, r), s.purges[j].scope;
    var name := Visits(c, scope)[n];
    var last := at[|at| - 1];
    VisitInside(c, s, j, at, n);
    VisitInside(c, s, j, at, |at| - 1);
    if EvidenceSince(s.log, a, name).Some? {
      var since := EvidenceSince(s.log, a, name).value;
      EvidenceOutlives(c, s, r, name);
      EvidenceConcerns(c, scope, s.reqs[r], name, s.log[since].what);
      UnendedEarlier(s.log, since, at[0], at[n]);
      if at[n] < since {
        UnendedBefore(s.log, s.now, since, at[0]);
        assert since != last;
      }
    }
  }

  lemma EvidenceConcerns(c: Config, scope: Scope, q: Req, name: CacheName, began: Event)
    requires Applies(scope, q) && name in Visits(c, scope) && began.Began?
    requires name == DataCache || began.did == q.did
    requires name == IdentityCache || InScope(OfBlob(q.cid), began.key)
    ensures Concerns(scope, began)
  {
  }

  /** Purge freshness. When no evaluation that concerns it overlapped a purge, whatever is served to a request
      that arrived after the purge rests, in each cache the purge visited, on an evaluation begun after the whole
      purge: the policy answer and the ownership answer always; the resolution of the actor's endpoint after a
      purge of the actor or of everything; the blob data after a purge of the blob or of everything. */
  lemma PurgeFreshness(c: Config, states: seq<State>, steps: seq<Step>, i: nat, r: ReqId, j: JobId, at: seq<Index>)
    requires IsRun(c, states, steps) && i < |states|
    requires WasServed(states[i], r) && Finished(c, states[i], j, at)
    requires Applies(states[i].purges[j].scope, states[i].reqs[r]) && at[|at| - 1] < states[i].reqs[r].born
    requires Quiet(states[i].log, states[i].purges[j].scope, at[0], at[|at| - 1])
    ensures var s := states[i];
            forall name :: name in Visits(c, s.purges[j].scope) ==>
              NewerThan(s.log, ReplyOf(s, r), name, at[|at| - 1])
  {
    hide IsRun, Inv, Quiet, NewerThan, OverlapsAt, Visits, Applies;
    var s := states[i];
    var a, scope := ReplyOf(s, r), s.purges[j].scope;
    RunInv(c, states, steps, i);
    forall n: nat | n < |at|
      ensures !OverlapsAt(s.log, a, Visits(c, scope)[n], at[n])
      ensures NewerThan(s.log, a, Visits(c, scope)[n], at[n]) ==> NewerThan(s.log, a, Visits(c, scope)[n], at[|at| - 1])
    {
      QuietVisit(c, s, r, j, at, n);
    }
    PurgeFreshIff(c, states, steps, i, r, j, at);
  }

  /** A purge that is over has left its trace, so the positions the theorem asks for exist. */
  lemma FinishedHasTrace(c: Config, states: seq<State>, steps: seq<Step>, i: nat, j: JobId) returns (at: seq<Index>)
    requires IsRun(c, states, steps) && i < |states|
    requires j in states[i].purges && states[i].purges[j].visited == |Visits(c, states[i].purges[j].scope)|
    ensures Finished(c, states[i], j, at) && |at| >= 2
  {
    hide IsRun;
    RunTraced(c, states, steps, i);
    at :| IsTrace(c, states[i].log, j, states[i].purges[j], at);
  }
}
