/** What can be served after a purge that an evaluation overlapped: two runs, each for every purge, whose last
    reply rests on an answer older than the purge. So the hypothesis of purge freshness cannot be dropped. */
module PurgeRaces {
  import opened Wrappers
  import opened BlobCids
  import opened BlobRules
  import opened Protocol
  import opened Invariants
  import opened Completion
  import opened Guarantees
  import opened Purging
  import opened Promises
  import opened Serving
  import opened SoloRuns
  import opened Sessions

  /** A policy query answered but not yet stored. */
  ghost predicate Overtaken(c: Config, s: State, did: Did, cid: BlobCid) {
    && s.now == 0 && s.cache == map[] && s.flight == map[PolicyKey(did, cid) := 0] && s.purges == map[]
    && s.reqs == map[0 := Req(did, cid, 0, 0, 0, Active(PolicyCheck, Run(0, Keep(Ruling(Allowed), 1))))]
    && s.log == [Record(0, Began(PolicyKey(did, cid), 0, did)), Record(0, PolicySaid(did, cid, Allowed, 0))]
  }

  lemma PolicyInFlight(c: Config, did: Did, cid: BlobCid) returns (s0: State, steps: seq<Step>, s: State)
    requires c.hasPolicy
    ensures Init(s0) && Path(c, s0, steps) == Some(s) && Overtaken(c, s, did, cid)
  {
    hide Path;
    s0 := State(0, [], map[], map[], map[], map[]);
    var s1 := DoArrive(s0, 0, did, cid);
    OneStep(c, s0, Arrive(0, did, cid));
    var s2 := DoLead(c, s1, 0);
    OneStep(c, s1, Lead(0));
    s := DoPolicyReply(c, s2, 0, Allowed);
    OneStep(c, s2, PolicyReply(0, Allowed));
    steps := [Arrive(0, did, cid)] + [Lead(0)] + [PolicyReply(0, Allowed)];
    PathJoins(c, s0, [Arrive(0, did, cid)], [Lead(0)]);
    PathJoins(c, s0, [Arrive(0, did, cid)] + [Lead(0)], [PolicyReply(0, Allowed)]);
  }

  // ---------- paths and the log ----------

  /** Along a path without origin answers, none are logged. */
  lemma {:induction false} PathLogsNoOrigin(c: Config, s: State, steps: seq<Step>)
    requires Path(c, s, steps).Some? && NoOrigin(steps)
    ensures var t := Path(c, s, steps).value;
            s.log <= t.log && forall m: nat :: |s.log| <= m < |t.log| ==> !t.log[m].what.OriginSaid?
    decreases |steps|
  {
    hide Enabled, Apply;
    if steps != [] {
      var s1 := Apply(c, s, steps[0]);
      StepLog(c, s, steps[0]);
      PathLogsNoOrigin(c, s1, steps[1..]);
      var t := Path(c, s, steps).value;
      forall m: nat | |s.log| <= m < |t.log|
        ensures !t.log[m].what.OriginSaid?
      {
        if m < |s1.log| {
          assert t.log[m] == s1.log[m] && Caused(c, steps[0], s, s1.log[m].what);
        }
      }
    }
  }

  lemma PurgesStay(c: Config, s: State, step: Step)
    requires Enabled(c, s, step)
    ensures Apply(c, s, step).purges.Keys >= s.purges.Keys
  {
    hide DoHit, DoJoin, DoLead, DoPolicyReply, DoPdsReply, DoOriginReply, DoBodyRead, DoVerify, DoStore, DoBreak,
      DoCancel, DoArrive, DoDrop, DoSkip, Visits, InScope;
    if !step.StartPurge? && !step.VisitCache? {
      PurgesUntouched(c, s, step);
    }
  }

  lemma {:induction false} PathPurgesStay(c: Config, s: State, steps: seq<Step>)
    requires Path(c, s, steps).Some?
    ensures Path(c, s, steps).value.purges.Keys >= s.purges.Keys
    decreases |steps|
  {
    hide Enabled, Apply;
    if steps != [] {
      PurgesStay(c, s, steps[0]);
      PathPurgesStay(c, Apply(c, s, steps[0]), steps[1..]);
    }
  }

  /** A path at whose end no purge has started logs no visit. */
  lemma {:induction false} PathLogsNoPurge(c: Config, s: State, steps: seq<Step>)
    requires Path(c, s, steps).Some? && Path(c, s, steps).value.purges == map[]
    ensures var t := Path(c, s, steps).value;
            s.log <= t.log && forall m: nat :: |s.log| <= m < |t.log| ==> !t.log[m].what.Purged?
    decreases |steps|
  {
    hide Enabled, Apply;
    if steps != [] {
      var s1 := Apply(c, s, steps[0]);
      StepLog(c, s, steps[0]);
      PathPurgesStay(c, s1, steps[1..]);
      PurgesStay(c, s, steps[0]);
      PathLogsNoPurge(c, s1, steps[1..]);
      var t := Path(c, s, steps).value;
      forall m: nat | |s.log| <= m < |t.log|
        ensures !t.log[m].what.Purged?
      {
        if m < |s1.log| {
          assert t.log[m] == s1.log[m] && Caused(c, steps[0], s, s1.log[m].what);
        }
      }
    }
  }

  /** Three paths from an initial state: up to a purge, the purge, and on; with the log positions of the visits. */
  lemma RaceRun(c: Config, s0: State, head: seq<Step>, s1: State, purge: seq<Step>, s2: State,
                tail: seq<Step>, s3: State, scope: Scope)
    returns (states: seq<State>, steps: seq<Step>, at: seq<Index>)
    requires Init(s0) && Path(c, s0, head) == Some(s1) && s1.purges == map[]
    requires Path(c, s1, purge) == Some(s2) && 0 in s2.purges && s2.purges[0] == Purge(scope, |Visits(c, scope)|)
    requires Path(c, s2, tail) == Some(s3) && s3.purges == s2.purges
    ensures IsRun(c, states, steps) && |states| == |steps| + 1 && states[|steps|] == s3
    ensures Finished(c, s3, 0, at) && |at| >= 2 && |s1.log| <= at[0] && at[|at| - 1] < |s2.log| <= |s3.log|
    ensures s1.log <= s2.log <= s3.log
  {
    hide Path, Visits, Enabled, Apply, IsTrace;
    PathJoins(c, s0, head, purge);
    var before := PathExtendsRun(c, [s0], [], head + purge);
    assert [] + (head + purge) == head + purge;
    at := FinishedHasTrace(c, before, head + purge, |head + purge|, 0);
    states := PathExtendsRun(c, before, head + purge, tail);
    steps := head + purge + tail;
    PathLogsNoPurge(c, s0, head);
    PathGrows(c, s1, purge);
    PathGrows(c, s2, tail);
    TraceGrows(c, s2.log, s3.log, 0, s2.purges[0], at);
    TraceInside(c, s1.log, s2.log, 0, s2.purges[0], at);
  }

  lemma TraceInside(c: Config, before: seq<Record>, log: seq<Record>, j: JobId, p: Purge, at: seq<Index>)
    requires IsTrace(c, log, j, p, at) && |at| > 0 && before <= log
    requires forall m: nat :: m < |before| ==> !before[m].what.Purged?
    ensures |before| <= at[0] && at[|at| - 1] < |log|
  {
    hide Visits;
    assert log[at[0]].what.Purged?;
  }

  lemma {:induction false} PathGrows(c: Config, s: State, steps: seq<Step>)
    requires Path(c, s, steps).Some?
    ensures s.log <= Path(c, s, steps).value.log
    decreases |steps|
  {
    hide Enabled, Apply, Caused;
    if steps != [] {
      StepLog(c, s, steps[0]);
      PathGrows(c, Apply(c, s, steps[0]), steps[1..]);
    }
  }

  // ---------- a stale policy decision ----------

  /** The answer lands in the cache after the purge; the request that asked for it goes away. */
  lemma StaleStored(c: Config, s: State, did: Did, cid: BlobCid) returns (t: State)
    requires c.hasPolicy && s.now == 0 && s.cache == map[] && s.flight == map[PolicyKey(did, cid) := 0]
    requires s.reqs == map[0 := Req(did, cid, 0, 0, 0, Active(PolicyCheck, Run(0, Keep(Ruling(Allowed), 1))))]
    ensures Path(c, s, [Store(0)] + [Cancel(0)]) == Some(t)
    ensures t.purges == s.purges && t.flight == map[] && t.now == 0 && s.log <= t.log
    ensures t.cache == map[PolicyKey(did, cid) := Entry(Ruling(Allowed), 0, 0, 1, |s.log|)]
    ensures t.reqs.Keys == {0} && t.reqs[0].status.Done?
  {
    hide Path;
    var s1 := DoStore(c, s, 0);
    OneStep(c, s, Store(0));
    t := DoCancel(c, s1, 0);
    OneStep(c, s1, Cancel(0));
    PathJoins(c, s, [Store(0)], [Cancel(0)]);
  }

  /** A new request finds it. */
  lemma StaleFound(c: Config, s: State, did: Did, cid: BlobCid, ins: Index) returns (t: State)
    requires c.policyTtl > 0 && c.hasPolicy && s.now == 0 && s.flight == map[]
    requires s.cache == map[PolicyKey(did, cid) := Entry(Ruling(Allowed), 0, 0, 1, ins)]
    requires s.reqs.Keys == {0} && s.reqs[0].status.Done?
    ensures Path(c, s, [Arrive(1, did, cid)] + [Hit(1)]) == Some(t)
    ensures t.purges == s.purges && t.flight == map[] && t.now == 0 && t.cache == s.cache && s.log <= t.log
    ensures At(c, t, 1, Active(DataFetch(AllowedAt(1)), Ask))
    ensures t.reqs[1].did == did && t.reqs[1].cid == cid && t.reqs[1].born == |s.log|
  {
    hide Path;
    var s1 := DoArrive(s, 1, did, cid);
    OneStep(c, s, Arrive(1, did, cid));
    t := DoHit(c, s1, 1);
    OneStep(c, s1, Hit(1));
    PathJoins(c, s, [Arrive(1, did, cid)], [Hit(1)]);
  }

  lemma StaleHit(c: Config, s: State, did: Did, cid: BlobCid) returns (steps: seq<Step>, t: State)
    requires c.policyTtl > 0 && c.hasPolicy && s.now == 0 && s.cache == map[]
    requires s.flight == map[PolicyKey(did, cid) := 0]
    requires s.reqs == map[0 := Req(did, cid, 0, 0, 0, Active(PolicyCheck, Run(0, Keep(Ruling(Allowed), 1))))]
    ensures Path(c, s, steps) == Some(t) && t.purges == s.purges && t.flight == map[] && t.now == 0
    ensures At(c, t, 1, Active(DataFetch(AllowedAt(1)), Ask))
    ensures t.reqs[1].did == did && t.reqs[1].cid == cid && t.reqs[1].born >= |s.log|
    ensures Represents(NO_CACHES.(policy := map[(did, cid) := Slot(Allowed, 0, 0)]), t.cache)
  {
    hide Path;
    var s1 := StaleStored(c, s, did, cid);
    t := StaleFound(c, s1, did, cid, |s.log|);
    steps := [Store(0)] + [Cancel(0)] + ([Arrive(1, did, cid)] + [Hit(1)]);
    PathJoins(c, s, [Store(0)] + [Cancel(0)], [Arrive(1, did, cid)] + [Hit(1)]);
  }

  lemma NothingCached()
    ensures Represents(NO_CACHES, map[])
  {
  }

  lemma PurgedNothing(c: Config, scope: Scope, cache: map<Key, Entry>)
    requires Represents(AfterPurge(c, NO_CACHES, scope), cache)
    ensures cache == map[]
  {
    forall k
      ensures k !in cache
    {
      assert Held(AfterPurge(c, NO_CACHES, scope), k) == Kept(cache, k);
    }
  }

  /** With an empty data cache, a good world serves the blob. */
  lemma GoodServe(c: Config, cs: Caches, now: Time, did: Did, cid: BlobCid, blob: Blob)
    requires Genuine(c.rules, cid, blob) && cs.data == map[] && cs.identity == map[] && cs.ownership == map[]
    ensures ServeBlob(c, cs, now, did, cid, GoodWorld(blob)).1 == Granted(blob)
  {
    hide Genuine, Obtain;
    GoodDownload(c, cid, blob);
  }

  /** A policy query that overlaps the purge stores its answer after the visit to the policy cache, and a request
      that arrives after the purge is served on the strength of it. */
  lemma StaleDecisionServed(c: Config, did: Did, cid: BlobCid, scope: Scope, blob: Blob)
    returns (states: seq<State>, steps: seq<Step>, at: seq<Index>)
    requires c.hasPolicy && c.policyTtl > 0 && Genuine(c.rules, cid, blob)
    requires InScope(scope, PolicyKey(did, cid))
    ensures IsRun(c, states, steps) && |states| == |steps| + 1
    ensures var s := states[|steps|];
            && WasServed(s, 1) && Finished(c, s, 0, at) && s.purges[0].scope == scope && |at| > 0
            && Applies(scope, s.reqs[1]) && at[|at| - 1] < s.reqs[1].born
            && !NewerThan(s.log, ReplyOf(s, 1), PolicyCache, at[0])
  {
    hide Path, Represents, AfterPurge, Visits, Enabled, Apply, Genuine, IsTrace, ServeBlob;
    var s0, head, s1 := PolicyInFlight(c, did, cid);
    NothingCached();
    var purge, s2 := SoloPurge(c, s1, 0, scope, NO_CACHES);
    PurgedNothing(c, scope, s2.cache);
    var hit, s3 := StaleHit(c, s2, did, cid);
    var cs := NO_CACHES.(policy := map[(did, cid) := Slot(Allowed, 0, 0)]);
    GoodServe(c, cs, 0, did, cid, blob);
    var rest, s4 := SoloServeBlob(c, s3, 1, DataFetch(AllowedAt(1)), cs, GoodWorld(blob));
    PathJoins(c, s2, hit, rest);
    states, steps, at := RaceRun(c, s0, head, s1, purge, s2, hit + rest, s4, scope);
    assert s4.log[1] == s1.log[1];
  }

  // ---------- stale ownership, with or without a policy client ----------

  /** A policy call with nothing cached and a service that allows; or none, without a client. */
  lemma PolicyPart(c: Config, s: State, r: ReqId, cs: Caches) returns (steps: seq<Step>, t: State, cs1: Caches)
    requires At(c, s, r, Active(PolicyCheck, Ask)) && s.flight == map[]
    requires Represents(cs, s.cache) && (c.hasPolicy ==> (s.reqs[r].did, s.reqs[r].cid) !in cs.policy)
    ensures Moves(c, s, steps, t, r) && Alone(t, r) && SameCall(s, t, r) && t.flight == map[] && NoOrigin(steps)
    ensures t.reqs[r].status.Active? && t.reqs[r].status.stage.DataFetch? && t.reqs[r].status.point.Ask?
    ensures Represents(cs1, t.cache) && cs1 == cs.(policy := cs1.policy)
    ensures cs1.policy.Keys <= cs.policy.Keys + {(s.reqs[r].did, s.reqs[r].cid)}
  {
    hide Moves, Alone, Represents;
    if c.hasPolicy {
      steps, t := SoloPolicy(c, s, r, cs, Output(AllowedOutput));
      cs1 := CallPolicy(c, cs, s.now, s.reqs[r].did, s.reqs[r].cid, Output(AllowedOutput)).0;
    } else {
      t := SkipStep(c, s, r);
      steps, cs1 := [SkipPolicy(r)], cs;
    }
  }

  /** A data evaluation from its start to the downloaded body, in a good world. */
  lemma DownloadPart(c: Config, s: State, r: ReqId, stage: Stage, cs: Caches, blob: Blob)
    returns (steps: seq<Step>, t: State, cs1: Caches, since: Index, ev: Index)
    requires At(c, s, r, Active(stage, Ask)) && stage.DataFetch? && s.flight == map[]
    requires Represents(cs, s.cache) && cs.data == map[] && cs.identity == map[]
    requires Genuine(c.rules, s.reqs[r].cid, blob)
    ensures Moves(c, s, steps, t, r) && SameCall(s, t, r) && t.flight == map[DataKey(s.reqs[r].cid) := r]
    ensures Working(c, t, r, stage, since, Check(blob.bytes, ev)) && Represents(cs1, t.cache)
    ensures cs1 == cs.(identity := cs1.identity)
  {
    hide Moves, Alone, Represents, Genuine, Accept, Panics, Downloaded, Hits, Held, Obtain, LiveIn, Changed, Without;
    var did, cid := s.reqs[r].did, s.reqs[r].cid;
    var w := GoodWorld(blob);
    GoodDownload(c, cid, blob);
    SameHit(c, cs, s, DataKey(cid));
    NotLive(c, cs, cid, s.now);
    var s1, begun := LeadStep(c, s, r);
    since := begun;
    SameDrop(cs, s.cache, cs, DataKey(cid));
    var pds, s2 := SoloPds(c, s1, r, stage, since, cs, w.dataPds);
    cs1 := CallPds(c, cs, s.now, did, w.dataPds).0;
    GoodPds(c, cs, s.now, did);
    var job := s2.reqs[r].status.point.job;
    var s3, said := OriginReplyStep(c, s2, r, stage, since, job.url, job.pds, Ok);
    ev := said;
    t := BodyReadStep(c, s3, r, stage, since, ev, Declared(w), w.chunks);
    var origin, body := [OriginReply(r, Ok)], [BodyRead(r, Declared(w), w.chunks)];
    steps := [Lead(r)] + pds + origin + body;
    MovesJoin(c, s, [Lead(r)], s1, pds, s2, r);
    MovesJoin(c, s, [Lead(r)] + pds, s2, origin, s3, r);
    MovesJoin(c, s, [Lead(r)] + pds + origin, s3, body, t, r);
  }

  lemma NotLive(c: Config, cs: Caches, cid: BlobCid, now: Time)
    requires cs.data == map[]
    ensures !LiveIn(c, cs, DataKey(cid), now) && Changed(cs, cs, DataKey(cid), None)
  {
  }

  lemma GoodPds(c: Config, cs: Caches, now: Time, did: Did)
    requires cs.identity == map[]
    ensures var (cs1, url) := CallPds(c, cs, now, did, Resolved("", Domain));
            url == Success("") && cs1 == cs.(identity := cs1.identity)
  {
  }

  /** Up to the moment at which the digest of a complete body is being computed. */
  lemma BodyInFlight(c: Config, did: Did, cid: BlobCid, blob: Blob)
    returns (s0: State, steps: seq<Step>, s: State, cs: Caches, stage: Stage, since: Index, ev: Index)
    requires Genuine(c.rules, cid, blob)
    ensures Init(s0) && Path(c, s0, steps) == Some(s) && s.purges == map[] && s.reqs.Keys == {0}
    ensures Working(c, s, 0, stage, since, Check(blob.bytes, ev)) && stage.DataFetch?
    ensures s.reqs[0].did == did && s.reqs[0].cid == cid && s.flight == map[DataKey(cid) := 0]
    ensures Represents(cs, s.cache) && cs.ownership == map[]
  {
    hide Path, Alone, Represents, Genuine;
    s0 := State(0, [], map[], map[], map[], map[]);
    var s1 := DoArrive(s0, 0, did, cid);
    OneStep(c, s0, Arrive(0, did, cid));
    OnlyRequest(s1, 0);
    NothingCached();
    var first, s2, cs1 := PolicyPart(c, s1, 0, NO_CACHES);
    stage := s2.reqs[0].status.stage;
    var second;
    second, s, cs, since, ev := DownloadPart(c, s2, 0, stage, cs1, blob);
    steps := [Arrive(0, did, cid)] + first + second;
    PathJoins(c, s0, [Arrive(0, did, cid)], first);
    PathJoins(c, s0, [Arrive(0, did, cid)] + first, second);
  }

  lemma OnlyRequest(s: State, r: ReqId)
    requires r in s.reqs && forall w :: w in s.reqs && w != r ==> s.reqs[w].status.Done?
    ensures Alone(s, r)
  {
  }

  /** A purge does not touch the requests. */
  lemma StillWorking(c: Config, s: State, t: State, r: ReqId, stage: Stage, since: Index, job: Job)
    requires Working(c, s, r, stage, since, job) && t.reqs == s.reqs && t.now == s.now
    ensures Working(c, t, r, stage, since, job)
  {
  }

  /** Live blob data and live ownership are served as they are. */
  lemma ServedByHits(c: Config, s: State, r: ReqId, stage: Stage, cs: Caches, blob: Blob)
    returns (steps: seq<Step>, t: State)
    requires c.dataTti > 0 && c.ownershipTtl > 0
    requires At(c, s, r, Active(stage, Ask)) && stage.DataFetch? && Represents(cs, s.cache)
    requires s.reqs[r].cid in cs.data && cs.data[s.reqs[r].cid] == Slot(blob, s.now, s.now)
    requires var k := (s.reqs[r].cid, s.reqs[r].did); k in cs.ownership && cs.ownership[k] == Slot((), s.now, s.now)
    ensures Moves(c, s, steps, t, r) && SameCall(s, t, r) && NoOrigin(steps) && WasServed(t, r)
    ensures ReplyOf(t, r).blob == blob
  {
    hide Moves, Alone, Represents, Deliver, Hits;
    var did, cid := s.reqs[r].did, s.reqs[r].cid;
    SameHit(c, cs, s, DataKey(cid));
    SameHit(c, cs, s, OwnerKey(cid, did));
    var s1 := HitStep(c, s, r);
    var e := s.cache[DataKey(cid)];
    DataDelivered(s.reqs[r], blob, e.ev, s.now);
    StillHits(c, s, s1, OwnerKey(cid, did), DataKey(cid));
    t := HitStep(c, s1, r);
    var o := s1.cache[OwnerKey(cid, did)];
    OwnerDelivered(s1.reqs[r], o.value, o.ev, s1.now);
    steps := [Hit(r)] + [Hit(r)];
    MovesJoin(c, s, [Hit(r)], s1, [Hit(r)], t, r);
  }

  lemma StillHits(c: Config, s: State, t: State, k: Key, other: Key)
    requires Hits(c, s, k) && t.now == s.now && k != other && other in t.cache
    requires t.cache == s.cache[other := t.cache[other]]
    ensures Hits(c, t, k)
  {
  }

  /** After the purge the body is accepted and stored; its request goes away. */
  lemma BodyLands(c: Config, s: State, did: Did, cid: BlobCid, stage: Stage, since: Index, ev: Index,
                  cs: Caches, blob: Blob)
    returns (steps: seq<Step>, t: State)
    requires Genuine(c.rules, cid, blob)
    requires Working(c, s, 0, stage, since, Check(blob.bytes, ev)) && stage.DataFetch? && s.reqs.Keys == {0}
    requires s.reqs[0].did == did && s.reqs[0].cid == cid && s.flight == map[DataKey(cid) := 0]
    requires Represents(cs, s.cache)
    ensures Path(c, s, steps) == Some(t) && NoOrigin(steps) && t.purges == s.purges && t.flight == map[]
    ensures t.now == s.now && t.reqs.Keys == {0} && t.reqs[0].status.Done?
    ensures Represents(cs.(ownership := cs.ownership[(cid, did) := Slot((), s.now, s.now)],
                           data := cs.data[cid := Slot(blob, s.now, s.now)]), t.cache)
  {
    hide Path, Alone, Represents, Genuine, Accept;
    GoodDownload(c, cid, blob);
    var checks, s1 := SoloChecks(c, s, 0, stage, since, blob.bytes, ev, cs);
    t := CancelStep(c, s1, 0);
    steps := checks + [Cancel(0)];
    PathJoins(c, s, checks, [Cancel(0)]);
  }

  /** A new request is served from what has landed. */
  lemma ServedAfterwards(c: Config, s: State, did: Did, cid: BlobCid, cs: Caches, blob: Blob)
    returns (steps: seq<Step>, t: State)
    requires c.dataTti > 0 && c.ownershipTtl > 0
    requires s.flight == map[] && s.reqs.Keys == {0} && s.reqs[0].status.Done? && Represents(cs, s.cache)
    requires c.hasPolicy ==> (did, cid) !in cs.policy
    requires cid in cs.data && cs.data[cid] == Slot(blob, s.now, s.now)
    requires (cid, did) in cs.ownership && cs.ownership[(cid, did)] == Slot((), s.now, s.now)
    ensures Path(c, s, steps) == Some(t) && NoOrigin(steps) && t.purges == s.purges
    ensures WasServed(t, 1) && ReplyOf(t, 1).blob == blob
    ensures t.reqs[1].did == did && t.reqs[1].cid == cid && t.reqs[1].born == |s.log|
  {
    hide Path, Alone, Represents;
    var s1 := DoArrive(s, 1, did, cid);
    OneStep(c, s, Arrive(1, did, cid));
    OnlyRequest(s1, 1);
    var policy, s2, cs2 := PolicyPart(c, s1, 1, cs);
    var hits;
    hits, t := ServedByHits(c, s2, 1, s2.reqs[1].status.stage, cs2, blob);
    steps := [Arrive(1, did, cid)] + policy + hits;
    PathJoins(c, s, [Arrive(1, did, cid)], policy);
    PathJoins(c, s, [Arrive(1, did, cid)] + policy, hits);
  }

  /** A purge of the pair forgets what the policy service said of it. */
  lemma PurgedPolicy(c: Config, cs: Caches, did: Did, cid: BlobCid, scope: Scope)
    requires c.hasPolicy && InScope(scope, OwnerKey(cid, did))
    ensures (did, cid) !in AfterPurge(c, cs, scope).policy
  {
  }

  /** An origin answer logged before a position belongs to an evaluation begun before it. */
  lemma EarlyAnswer(c: Config, s: State, r: ReqId, p: Index)
    requires Inv(c, s) && WasServed(s, r)
    requires forall m: nat :: p <= m < |s.log| ==> !s.log[m].what.OriginSaid?
    ensures !NewerThan(s.log, ReplyOf(s, r), OwnershipCache, p)
  {
    hide CacheInv, FlightInv, HistoryInv, ReqInv, Genuine, Unended, Outlives;
    ServedFacts(c, s, r);
    assert RecordOk(s.log, ReplyOf(s, r).ownerEv);
  }

  /** A download that overlaps the purge notes its actor's ownership after the visit to the ownership cache, and a
      request that arrives after the purge is served on the strength of it; with a policy client or without. */
  lemma StaleOwnershipServed(c: Config, did: Did, cid: BlobCid, scope: Scope, blob: Blob)
    returns (states: seq<State>, steps: seq<Step>, at: seq<Index>)
    requires c.dataTti > 0 && c.ownershipTtl > 0 && Genuine(c.rules, cid, blob)
    requires InScope(scope, OwnerKey(cid, did))
    ensures IsRun(c, states, steps) && |states| == |steps| + 1
    ensures var s := states[|steps|];
            && WasServed(s, 1) && Finished(c, s, 0, at) && s.purges[0].scope == scope && |at| > 0
            && Applies(scope, s.reqs[1]) && at[|at| - 1] < s.reqs[1].born
            && !NewerThan(s.log, ReplyOf(s, 1), OwnershipCache, at[0])
  {
    hide Path, Represents, AfterPurge, Visits, IsRun, Inv, Genuine, IsTrace, NewerThan, Alone;
    var s0, head, s1, cs, stage, since, ev := BodyInFlight(c, did, cid, blob);
    var purge, s2 := SoloPurge(c, s1, 0, scope, cs);
    StillWorking(c, s1, s2, 0, stage, since, Check(blob.bytes, ev));
    if c.hasPolicy {
      PurgedPolicy(c, cs, did, cid, scope);
    }
    var purged := AfterPurge(c, cs, scope);
    var land, landed := BodyLands(c, s2, did, cid, stage, since, ev, purged, blob);
    var serve, s3 := ServedAfterwards(c, landed, did, cid,
      purged.(ownership := purged.ownership[(cid, did) := Slot((), s2.now, s2.now)],
              data := purged.data[cid := Slot(blob, s2.now, s2.now)]), blob);
    var tail := land + serve;
    PathJoins(c, s2, land, serve);
    PathGrows(c, s2, land);
    states, steps, at := RaceRun(c, s0, head, s1, purge, s2, tail, s3, scope);
    PathLogsNoOrigin(c, s1, purge);
    PathLogsNoOrigin(c, s2, tail);
    RunInv(c, states, steps, |steps|);
    forall m: nat | at[0] <= m < |s3.log|
      ensures !s3.log[m].what.OriginSaid?
    {
      if m < |s2.log| {
        assert s3.log[m] == s2.log[m];
      }
    }
    EarlyAnswer(c, s3, 1, at[0]);
  }
}
