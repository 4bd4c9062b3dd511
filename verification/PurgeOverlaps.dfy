/** The other direction of watched freshness: from every reachable state in which a purge is about to visit the
    policy cache while a query in its scope can still be answered, some run goes on to serve a later request on that
    old query. */
module PurgeOverlaps {
  import opened Wrappers
  import opened BlobCids
  import opened BlobRules
  import opened Protocol
  import opened Invariants
  import opened Completion
  import opened Guarantees
  import opened Purging
  import opened Flights
  import opened Promises
  import opened Serving
  import opened SoloRuns
  import opened Sessions
  import opened PurgeRaces

  // ---------- the caches of any reachable state ----------

  /** The service caches that hold what the machine holds. */
  function CachesOf(cache: map<Key, Entry>): Caches
    requires WellTyped(cache)
  {
    Caches(
      map k | k in cache && k.PolicyKey? :: (k.did, k.cid) := Slot(cache[k].value.decision, cache[k].at, cache[k].used),
      map k | k in cache && k.PdsKey? :: k.did := Slot(cache[k].value.url, cache[k].at, cache[k].used),
      map k | k in cache && k.DataKey? :: k.cid := Slot(cache[k].value.blob, cache[k].at, cache[k].used),
      map k | k in cache && k.OwnerKey? :: (k.cid, k.did) := Slot((), cache[k].at, cache[k].used))
  }

  predicate WellTyped(cache: map<Key, Entry>) {
    forall k :: k in cache ==>
      match k
      case PolicyKey(_, _) => cache[k].value.Ruling?
      case PdsKey(_) => cache[k].value.Endpoint?
      case DataKey(_) => cache[k].value.Content?
      case OwnerKey(_, _) => cache[k].value.Owned?
  }

  lemma ReachableIsTyped(c: Config, s: State)
    requires CacheInv(c, s)
    ensures WellTyped(s.cache)
  {
    forall k | k in s.cache
      ensures EntryOk(c, s.log, s.now, k, s.cache[k])
    {
    }
  }

  lemma CachesRepresent(cache: map<Key, Entry>)
    requires WellTyped(cache)
    ensures Represents(CachesOf(cache), cache)
  {
    forall k
      ensures Held(CachesOf(cache), k) == Kept(cache, k)
    {
      match k
      case PolicyKey(did, cid) => assert (did, cid) in CachesOf(cache).policy <==> k in cache;
      case PdsKey(did) => assert did in CachesOf(cache).identity <==> k in cache;
      case DataKey(cid) => assert cid in CachesOf(cache).data <==> k in cache;
      case OwnerKey(cid, did) => assert (cid, did) in CachesOf(cache).ownership <==> k in cache;
    }
  }

  // ---------- everyone else goes away ----------

  /** Only the history, the other requests and their evaluations differ; what `l` leads it leads still. */
  ghost predicate LeftAlone(s: State, t: State, l: ReqId) {
    && t.now == s.now && t.cache == s.cache && t.purges == s.purges && t.reqs.Keys == s.reqs.Keys
    && l in s.reqs && t.reqs[l] == s.reqs[l] && s.log <= t.log
    && (forall k :: k in s.flight && s.flight[k] == l ==> k in t.flight && t.flight[k] == l)
  }

  lemma {:induction false} CancelOthers(c: Config, s: State, others: set<ReqId>, l: ReqId)
    returns (steps: seq<Step>, t: State)
    requires others <= s.reqs.Keys && l in s.reqs && l !in others
    ensures Path(c, s, steps) == Some(t) && LeftAlone(s, t, l)
    ensures forall w :: w in s.reqs ==> t.reqs[w] == s.reqs[w] || t.reqs[w].status.Done?
    ensures forall w :: w in others ==> t.reqs[w].status.Done?
    decreases |others|
  {
    hide Path, Enabled, Apply;
    if others == {} {
      steps, t := [], s;
      EmptyPath(c, s);
    } else {
      var w :| w in others;
      if s.reqs[w].status.Done? {
        steps, t := CancelOthers(c, s, others - {w}, l);
      } else {
        var s1 := OneCancelled(c, s, w, l);
        var tail;
        tail, t := CancelOthers(c, s1, others - {w}, l);
        steps := [Cancel(w)] + tail;
        PathJoins(c, s, [Cancel(w)], tail);
      }
    }
  }

  lemma OneCancelled(c: Config, s: State, w: ReqId, l: ReqId) returns (t: State)
    requires CanCancel(s, w) && l in s.reqs && l != w
    ensures Path(c, s, [Cancel(w)]) == Some(t) && LeftAlone(s, t, l)
    ensures forall x :: x in s.reqs && x != w ==> t.reqs[x] == s.reqs[x]
    ensures t.reqs[w].status.Done?
  {
    OneStep(c, s, Cancel(w));
    t := DoCancel(c, s, w);
  }

  lemma AllDoneIsIdle(s: State)
    requires FlightInv(s) && forall w :: w in s.reqs ==> s.reqs[w].status.Done?
    ensures s.flight == map[]
  {
    assert forall w, k :: w in s.reqs ==> !Leads(s.reqs[w], k);
    assert forall k :: k !in s.flight;
  }

  // ---------- the old query is answered, and a later request served on it ----------

  /** The query of `k` led by `l` can still come to an Allowed that is stored. */
  predicate CanStillAllow(c: Config, s: State, k: Key, l: ReqId) {
    && k in s.flight && s.flight[k] == l && AtJob(c, s, l) && s.reqs[l].status.stage.PolicyCheck?
    && (JobOf(s, l).Query? || (JobOf(s, l).Keep? && JobOf(s, l).value == Ruling(Allowed)))
  }

  /** The answer to be stored rests on the evaluation the request is running. */
  predicate RestsOn(log: seq<Record>, ev: Index, since: Index) {
    ev < |log| && log[ev].what.PolicySaid? && log[ev].what.since == since
  }

  lemma AnswerArrives(c: Config, s: State, l: ReqId, did: Did, cid: BlobCid)
    returns (steps: seq<Step>, t: State, ev: Index)
    requires ReqInv(c, s) && Alone(s, l) && CanStillAllow(c, s, PolicyKey(did, cid), l)
    requires s.reqs[l].did == did && s.reqs[l].cid == cid
    ensures Moves(c, s, steps, t, l) && t.cache == s.cache && t.flight == s.flight && s.log <= t.log && t.now == s.now
    ensures Working(c, t, l, PolicyCheck, s.reqs[l].status.point.since, Keep(Ruling(Allowed), ev))
    ensures RestsOn(t.log, ev, s.reqs[l].status.point.since) && SameCall(s, t, l)
  {
    hide Alone, StageOk, ReplyOk, Unended;
    assert ReqOk(c, s.log, s.now, l, s.reqs[l]);
    var since := s.reqs[l].status.point.since;
    if JobOf(s, l).Query? {
      ev := |s.log|;
      steps := [PolicyReply(l, Allowed)];
      var ev1;
      t, ev1 := PolicyReplyStep(c, s, l, PolicyCheck, since, Allowed);
      OneStep(c, s, PolicyReply(l, Allowed));
    } else {
      steps, t, ev := [], s, JobOf(s, l).ev;
      EmptyPath(c, s);
    }
  }

  /** The answer is stored, its request goes away, and a new request passes on it. */
  lemma AnswerIsUsed(c: Config, states: seq<State>, done: seq<Step>, l: ReqId, r: ReqId, did: Did, cid: BlobCid,
                     since: Index, ev: Index)
    returns (steps: seq<Step>, t: State)
    requires IsRun(c, states, done) && c.hasPolicy && c.policyTtl > 0
    requires var s := states[|done|];
             && Working(c, s, l, PolicyCheck, since, Keep(Ruling(Allowed), ev))
             && s.reqs[l].did == did && s.reqs[l].cid == cid && r !in s.reqs
             && forall w :: w in s.reqs && w != l ==> s.reqs[w].status.Done?
    ensures var s := states[|done|];
            && Path(c, s, steps) == Some(t) && s.log <= t.log && t.purges == s.purges && t.flight == map[]
            && At(c, t, r, Active(DataFetch(AllowedAt(ev)), Ask))
            && t.reqs[r].did == did && t.reqs[r].cid == cid && t.reqs[r].born >= |s.log|
  {
    hide Path, Inv, Alone, Represents, Apply, Enabled;
    var s := states[|done|];
    var k := PolicyKey(did, cid);
    var s1, e := StoreStep(c, s, l);
    var s2 := GoneAfter(c, s1, l);
    PathJoins(c, s, [Store(l)], [Cancel(l)]);
    var longer := PathExtendsRun(c, states, done, [Store(l)] + [Cancel(l)]);
    RunInv(c, longer, done + ([Store(l)] + [Cancel(l)]), |done + ([Store(l)] + [Cancel(l)])|);
    IdleAfter(c, s2);
    PathGrows(c, s, [Store(l)] + [Cancel(l)]);
    t := NewcomerHits(c, s2, r, did, cid, e);
    steps := [Store(l)] + [Cancel(l)] + ([Arrive(r, did, cid)] + [Hit(r)]);
    PathJoins(c, s, [Store(l)] + [Cancel(l)], [Arrive(r, did, cid)] + [Hit(r)]);
    PathGrows(c, s2, [Arrive(r, did, cid)] + [Hit(r)]);
  }

  lemma IdleAfter(c: Config, s: State)
    requires Inv(c, s) && forall w :: w in s.reqs ==> s.reqs[w].status.Done?
    ensures s.flight == map[]
  {
    hide LogOk, CacheInv, ReqInv, HistoryInv, FlightInv;
    AllDoneIsIdle(s);
  }

  lemma GoneAfter(c: Config, s: State, l: ReqId) returns (t: State)
    requires CanCancel(s, l)
    ensures Path(c, s, [Cancel(l)]) == Some(t) && t.cache == s.cache && t.purges == s.purges && t.now == s.now
    ensures t.reqs.Keys == s.reqs.Keys && t.reqs[l].status.Done?
    ensures forall w :: w in s.reqs && w != l ==> t.reqs[w] == s.reqs[w]
  {
    OneStep(c, s, Cancel(l));
    t := DoCancel(c, s, l);
  }

  lemma NewcomerHits(c: Config, s: State, r: ReqId, did: Did, cid: BlobCid, e: Entry) returns (t: State)
    requires c.hasPolicy && c.policyTtl > 0 && r !in s.reqs && s.flight == map[]
    requires forall w :: w in s.reqs ==> s.reqs[w].status.Done?
    requires PolicyKey(did, cid) in s.cache && s.cache[PolicyKey(did, cid)] == e
    requires e.value == Ruling(Allowed) && e.at == s.now
    ensures Path(c, s, [Arrive(r, did, cid)] + [Hit(r)]) == Some(t)
    ensures t.purges == s.purges && t.flight == map[] && At(c, t, r, Active(DataFetch(AllowedAt(e.ev)), Ask))
    ensures t.reqs[r].did == did && t.reqs[r].cid == cid && t.reqs[r].born == |s.log|
  {
    hide Path;
    var s1 := DoArrive(s, r, did, cid);
    OneStep(c, s, Arrive(r, did, cid));
    t := DoHit(c, s1, r);
    OneStep(c, s1, Hit(r));
    PathJoins(c, s, [Arrive(r, did, cid)], [Hit(r)]);
  }

  /** In a good world a blob is served from whatever caches. */
  lemma GoodServeAlways(c: Config, cs: Caches, now: Time, did: Did, cid: BlobCid, blob: Blob)
    requires Genuine(c.rules, cid, blob)
    ensures ServeBlob(c, cs, now, did, cid, GoodWorld(blob)).1.Granted?
  {
    hide Genuine, Obtain;
    GoodDownload(c, cid, blob);
  }

  /** The purge makes its visits and everyone else goes away; the query goes on. */
  lemma PurgedAndLeft(c: Config, s: State, j: JobId, l: ReqId, k: Key) returns (steps: seq<Step>, t: State)
    requires j in s.purges && s.purges[j].visited == 0 && CanStillAllow(c, s, k, l)
    ensures Path(c, s, steps) == Some(t) && s.log <= t.log && t.reqs.Keys == s.reqs.Keys
    ensures |steps| > 0 && steps[0] == VisitCache(j)
    ensures j in t.purges && t.purges[j] == Purge(s.purges[j].scope, |Visits(c, s.purges[j].scope)|)
    ensures CanStillAllow(c, t, k, l) && t.reqs[l] == s.reqs[l] && Alone(t, l)
    ensures forall w :: w in t.reqs && w != l ==> t.reqs[w].status.Done?
  {
    hide Path, Visits, Alone, Represents;
    var visits, s1 := VisitsLeft(c, s, j, 0);
    FirstVisit(c, s, j, visits, s1);
    var cancels;
    cancels, t := CancelOthers(c, s1, s1.reqs.Keys - {l}, l);
    steps := visits + cancels;
    PathJoins(c, s, visits, cancels);
    OnlyRequest(t, l);
  }

  /** Up to the stored answer: then the query is answered. */
  lemma PurgedAndAnswered(c: Config, states: seq<State>, done: seq<Step>, j: JobId, l: ReqId, did: Did, cid: BlobCid)
    returns (steps: seq<Step>, t: State, ev: Index)
    requires IsRun(c, states, done)
    requires var s := states[|done|];
             && j in s.purges && s.purges[j].visited == 0 && CanStillAllow(c, s, PolicyKey(did, cid), l)
             && s.reqs[l].did == did && s.reqs[l].cid == cid
    ensures var s := states[|done|]; var since := s.reqs[l].status.point.since;
            && Path(c, s, steps) == Some(t) && s.log <= t.log && t.reqs.Keys == s.reqs.Keys
            && |steps| > 0 && steps[0] == VisitCache(j)
            && j in t.purges && t.purges[j] == Purge(s.purges[j].scope, |Visits(c, s.purges[j].scope)|)
            && Working(c, t, l, PolicyCheck, since, Keep(Ruling(Allowed), ev)) && RestsOn(t.log, ev, since)
            && t.reqs[l].did == did && t.reqs[l].cid == cid && since < |s.log|
            && forall w :: w in t.reqs && w != l ==> t.reqs[w].status.Done?
  {
    hide Path, Inv, Visits, Alone, Apply, Enabled, CanStillAllow;
    var s := states[|done|];
    StillAllows(c, s, PolicyKey(did, cid), l);
    RunInv(c, states, done, |done|);
    SinceIsPast(c, s, l);
    var first, s1 := PurgedAndLeft(c, s, j, l, PolicyKey(did, cid));
    var longer := PathExtendsRun(c, states, done, first);
    RunInv(c, longer, done + first, |done + first|);
    InvReqs(c, s1);
    var answer;
    answer, t, ev := AnswerArrives(c, s1, l, did, cid);
    steps := first + answer;
    PathJoins(c, s, first, answer);
  }

  lemma StillAllows(c: Config, s: State, k: Key, l: ReqId)
    requires CanStillAllow(c, s, k, l)
    ensures AtJob(c, s, l)
  {
  }

  lemma InvReqs(c: Config, s: State)
    requires Inv(c, s)
    ensures ReqInv(c, s)
  {
    hide LogOk, CacheInv, FlightInv, HistoryInv, ReqInv;
  }

  lemma SinceIsPast(c: Config, s: State, l: ReqId)
    requires Inv(c, s) && AtJob(c, s, l)
    ensures s.reqs[l].status.point.since < |s.log|
  {
    hide LogOk, CacheInv, FlightInv, HistoryInv, StageOk, JobOk, ReplyOk;
    assert ReqOk(c, s.log, s.now, l, s.reqs[l]);
  }

  /** The visits still due begin with a visit. */
  lemma FirstVisit(c: Config, s: State, j: JobId, steps: seq<Step>, t: State)
    requires j in s.purges && s.purges[j].visited == 0 && j in t.purges && Path(c, s, steps) == Some(t)
    requires t.purges[j].visited == |Visits(c, s.purges[j].scope)|
    requires forall step :: step in steps ==> step == VisitCache(j)
    ensures |steps| > 0 && steps[0] == VisitCache(j)
  {
    hide Path, Visits;
    EmptyPath(c, s);
    VisitsSome(c, s.purges[j].scope);
    assert |steps| > 0 ==> steps[0] in steps;
  }

  lemma VisitsSome(c: Config, scope: Scope)
    ensures |Visits(c, scope)| >= 2
  {
  }

  lemma LeaderIsAbout(c: Config, states: seq<State>, done: seq<Step>, k: Key, l: ReqId)
    requires IsRun(c, states, done) && CanStillAllow(c, states[|done|], k, l) && k.PolicyKey?
    ensures states[|done|].reqs[l].did == k.did && states[|done|].reqs[l].cid == k.cid
  {
    hide Enabled, Apply, LogOk, CacheInv, ReqInv, HistoryInv;
    RunInv(c, states, done, |done|);
    assert Leads(states[|done|].reqs[l], k);
  }

  lemma CachesHere(c: Config, s: State)
    requires Inv(c, s)
    ensures WellTyped(s.cache) && Represents(CachesOf(s.cache), s.cache)
  {
    hide LogOk, CacheInv, ReqInv, HistoryInv, FlightInv, Represents, WellTyped;
    ReachableIsTyped(c, s);
    CachesRepresent(s.cache);
  }

  lemma TraceEnds(c: Config, s: State, t: State, j: JobId, at: seq<Index>)
    requires Finished(c, s, j, at) && |at| > 0 && s.log <= t.log && j in t.purges && t.purges[j] == s.purges[j]
    ensures Finished(c, t, j, at) && at[|at| - 1] < |s.log|
  {
    hide Visits;
    TraceGrows(c, s.log, t.log, j, s.purges[j], at);
  }

  /** The reply rests on an evaluation older than the position. */
  lemma RestsOnOld(s: State, r: ReqId, ev: Index, since: Index, p: Index)
    requires WasServed(s, r) && ReplyOf(s, r).pass == AllowedAt(ev) && RestsOn(s.log, ev, since) && since < p
    ensures !NewerThan(s.log, ReplyOf(s, r), PolicyCache, p)
  {
  }

  /** From an answered query to a served newcomer. */
  lemma NewcomerServed(c: Config, states: seq<State>, done: seq<Step>, l: ReqId, r: ReqId, did: Did, cid: BlobCid,
                       since: Index, ev: Index, blob: Blob)
    returns (steps: seq<Step>, t: State)
    requires IsRun(c, states, done) && c.hasPolicy && c.policyTtl > 0 && Genuine(c.rules, cid, blob)
    requires var s := states[|done|];
             && Working(c, s, l, PolicyCheck, since, Keep(Ruling(Allowed), ev)) && RestsOn(s.log, ev, since)
             && s.reqs[l].did == did && s.reqs[l].cid == cid && r !in s.reqs
             && forall w :: w in s.reqs && w != l ==> s.reqs[w].status.Done?
    ensures var s := states[|done|];
            && Path(c, s, steps) == Some(t) && s.log <= t.log && t.purges == s.purges
            && WasServed(t, r) && ReplyOf(t, r).pass == AllowedAt(ev) && RestsOn(t.log, ev, since)
            && t.reqs[r].did == did && t.reqs[r].cid == cid && t.reqs[r].born >= |s.log|
  {
    hide Path, Inv, Alone, Represents, Apply, Enabled, Genuine, ServeBlob;
    var s := states[|done|];
    var used, s1 := AnswerIsUsed(c, states, done, l, r, did, cid, since, ev);
    var longer := PathExtendsRun(c, states, done, used);
    RunInv(c, longer, done + used, |done + used|);
    CachesHere(c, s1);
    var cs := CachesOf(s1.cache);
    GoodServeAlways(c, cs, s1.now, did, cid, blob);
    var served;
    served, t := SoloServeBlob(c, s1, r, DataFetch(AllowedAt(ev)), cs, GoodWorld(blob));
    steps := used + served;
    PathJoins(c, s, used, served);
    PathGrows(c, s1, served);
    assert t.log[ev] == s.log[ev];
  }

  /** From every reachable state at the first visit of a purge, whoever else is active: a query in its scope that
      can still be answered within its timeout can be the ground on which a request that arrives after the purge is
      served. So what is watched for freshness cannot be relaxed for policy queries. */
  lemma OverlapCanBeServed(c: Config, states: seq<State>, done: seq<Step>, j: JobId, l: ReqId, r: ReqId,
                           did: Did, cid: BlobCid, blob: Blob)
    returns (longer: seq<State>, more: seq<Step>, at: seq<Index>)
    requires IsRun(c, states, done) && c.hasPolicy && c.policyTtl > 0 && Genuine(c.rules, cid, blob)
    requires var s := states[|done|];
             && j in s.purges && s.purges[j].visited == 0 && InScope(s.purges[j].scope, PolicyKey(did, cid))
             && CanStillAllow(c, s, PolicyKey(did, cid), l) && r !in s.reqs
    ensures IsRun(c, longer, done + more) && states <= longer && |longer| == |done| + |more| + 1
    ensures var t := longer[|done| + |more|]; var scope := states[|done|].purges[j].scope;
            && WasServed(t, r) && Finished(c, t, j, at) && t.purges[j].scope == scope && |at| > 0
            && Applies(scope, t.reqs[r]) && at[|at| - 1] < t.reqs[r].born
            && !NewerThan(t.log, ReplyOf(t, r), PolicyCache, at[0])
  {
    hide Path, Inv, Apply, Enabled, Visits, Genuine, Finished, NewerThan, Working, CanStillAllow, RestsOn;
    var s := states[|done|];
    StillAllows(c, s, PolicyKey(did, cid), l);
    LeaderIsAbout(c, states, done, PolicyKey(did, cid), l);
    var since := s.reqs[l].status.point.since;
    var first, s1, ev := PurgedAndAnswered(c, states, done, j, l, did, cid);
    var states1 := PathExtendsRun(c, states, done, first);
    var second, s2 := NewcomerServed(c, states1, done + first, l, r, did, cid, since, ev, blob);
    longer := PathExtendsRun(c, states1, done + first, second);
    more := first + second;
    assert done + first + second == done + more;
    at := FinishedHasTrace(c, states1, done + first, |done + first|, j);
    TraceIsVisit(c, states1, done + first, |done + first|, j, at, |done|, 0);
    TraceEnds(c, s1, s2, j, at);
    RestsOnOld(s2, r, ev, since, at[0]);
  }
}
