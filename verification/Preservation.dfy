/** Every step keeps the invariant of the protocol. */
module Preservation {
  import opened Wrappers
  import opened BlobRules
  import BodyStreams
  import opened Protocol
  import opened Invariants

  lemma TakenGrows(log: seq<Record>, more: seq<Record>, i: int, n: nat, m: nat, k: Key)
    requires log <= more && n <= m && TakenBetween(log, i, n, k)
    ensures TakenBetween(more, i, m, k)
  {
    var j: nat :| i < j < n && j < |log| && Takes(log[j].what, k);
    assert more[j] == log[j];
  }

  /** Appending records that put nothing: what leaves the cache must be taken by one of them. */
  lemma HistoryGrows(s: State, t: State)
    requires HistoryInv(s) && s.log <= t.log
    requires forall j: nat, k :: |s.log| <= j < |t.log| ==> !Puts(t.log[j].what, k)
    requires forall k :: k in s.cache ==> k in t.cache || TakenBetween(t.log, |s.log| - 1, |t.log|, k)
    ensures HistoryInv(t)
  {
    forall i: nat, k: Key | i < |t.log| && Puts(t.log[i].what, k)
      ensures k in t.cache || TakenBetween(t.log, i, |t.log|, k)
    {
      assert i < |s.log| && t.log[i] == s.log[i];
      if k in s.cache {
        if k !in t.cache {
          var j: nat :| |s.log| - 1 < j < |t.log| && Takes(t.log[j].what, k);
        }
      } else {
        TakenGrows(s.log, t.log, i, |s.log|, |t.log|, k);
      }
    }
    forall i: nat, n: nat, k: Key | i < n < |t.log| && !k.OwnerKey? && Puts(t.log[i].what, k) && Puts(t.log[n].what, k)
      ensures TakenBetween(t.log, i, n, k)
    {
      assert n < |s.log| && t.log[n] == s.log[n] && t.log[i] == s.log[i];
      TakenGrows(s.log, t.log, i, n, n, k);
    }
  }

  /** Appending one record that puts `k`: it must be absent, unless it is an ownership key. */
  lemma HistoryPut(s: State, t: State, k: Key)
    requires HistoryInv(s) && |t.log| == |s.log| + 1 && s.log <= t.log
    requires (t.log[|s.log|].what.Stored? || t.log[|s.log|].what.Noted?) && t.log[|s.log|].what.key == k
    requires k.OwnerKey? || k !in s.cache
    requires t.cache.Keys == s.cache.Keys + {k}
    ensures HistoryInv(t)
  {
    var last := |s.log|;
    forall i: nat, x: Key | i < |t.log| && Puts(t.log[i].what, x)
      ensures x in t.cache || TakenBetween(t.log, i, |t.log|, x)
    {
      if i < last {
        assert t.log[i] == s.log[i];
        if x !in s.cache {
          TakenGrows(s.log, t.log, i, last, |t.log|, x);
        }
      }
    }
    forall i: nat, n: nat, x: Key | i < n < |t.log| && !x.OwnerKey? && Puts(t.log[i].what, x) && Puts(t.log[n].what, x)
      ensures TakenBetween(t.log, i, n, x)
    {
      assert t.log[i] == s.log[i];
      if n < last {
        assert t.log[n] == s.log[n];
        TakenGrows(s.log, t.log, i, n, n, x);
      } else {
        assert x == k && x !in s.cache;
        TakenGrows(s.log, t.log, i, last, last, x);
      }
    }
  }

  lemma CacheGrows(c: Config, s: State, t: State)
    requires CacheInv(c, s) && s.log <= t.log && s.now <= t.now
    requires forall k :: k in t.cache ==> k in s.cache && t.cache[k] == s.cache[k]
    requires forall k, p: nat :: k in t.cache && |s.log| <= p < |t.log| ==>
               !PurgesKey(t.log[p].what, k) && !Puts(t.log[p].what, k)
    ensures CacheInv(c, t)
  {
    forall k | k in t.cache
      ensures EntryOk(c, t.log, t.now, k, t.cache[k])
    {
      EntryGrows(c, s.log, s.now, t.log, t.now, k, t.cache[k]);
    }
  }

  /** Requests that did not move are still fine when no evaluation of theirs ended. */
  lemma OthersGrow(c: Config, s: State, log: seq<Record>, now: Time, moved: set<ReqId>)
    requires ReqInv(c, s) && s.log <= log && s.now <= now
    requires forall w :: w in s.reqs && w !in moved ==> Undisturbed(s.log, log, s.reqs[w])
    ensures forall w :: w in s.reqs && w !in moved ==> ReqOk(c, log, now, w, s.reqs[w])
  {
    forall w | w in s.reqs && w !in moved
      ensures ReqOk(c, log, now, w, s.reqs[w])
    {
      ReqGrows(c, s.log, s.now, log, now, w, s.reqs[w]);
    }
  }

  /** A record that neither ends an evaluation, nor puts or takes an entry. */
  predicate Mild(e: Event) {
    e.Began? || e.PolicySaid? || e.PdsSaid? || e.OriginSaid?
  }

  predicate FreshOk(s: State, log: seq<Record>) {
    s.log <= log && forall i: nat :: |s.log| <= i < |log| ==> RecordOk(log, i) && log[i].time <= s.now
  }

  lemma FlightSame(s: State, t: State, r: ReqId)
    requires FlightInv(s) && r in s.reqs && r in t.reqs
    requires t.flight == s.flight && t.cache == s.cache && t.reqs == s.reqs[r := t.reqs[r]]
    requires forall k :: Leads(t.reqs[r], k) <==> Leads(s.reqs[r], k)
    ensures FlightInv(t)
  {
  }

  /** A request moves on within its call: nothing ends, nothing is put, taken or led anew. */
  lemma StepOfOne(c: Config, s: State, t: State, r: ReqId)
    requires Inv(c, s) && r in s.reqs && r in t.reqs
    requires t == s.(log := t.log, reqs := s.reqs[r := t.reqs[r]])
    requires FreshOk(s, t.log) && forall i: nat :: |s.log| <= i < |t.log| ==> Mild(t.log[i].what)
    requires forall k :: Leads(t.reqs[r], k) <==> Leads(s.reqs[r], k)
    requires ReqOk(c, t.log, s.now, r, t.reqs[r])
    ensures Inv(c, t)
  {
    hide RecordOk, EntryOk, ReqOk, Leads, FlightInv, HistoryInv;
    LogGrows(s.log, s.now, t.log, s.now);
    CacheGrows(c, s, t);
    HistoryGrows(s, t);
    OthersGrow(c, s, t.log, s.now, {r});
    FlightSame(s, t, r);
  }

  // ---------- the checks on a request do not depend on where it is ----------

  lemma StageSame(c: Config, log: seq<Record>, r: ReqId, q: Req, p: Req, stage: Stage, point: Point)
    requires p == q.(status := p.status)
    ensures StageOk(c, log, r, p, stage, point) <==> StageOk(c, log, r, q, stage, point)
  {
  }

  /** Leaving the identity call counts one origin request. */
  lemma StageSamePds(c: Config, log: seq<Record>, r: ReqId, q: Req, p: Req)
    requires q.status.Active? && InPds(q.status.point) && StageOk(c, log, r, q, q.status.stage, q.status.point)
    requires p == q.(status := p.status, origin := q.origin + 1) && p.status.Active?
    requires p.status.stage == q.status.stage && p.status.point.Run? && !InPds(p.status.point)
    requires !q.status.stage.PolicyCheck?
    ensures StageOk(c, log, r, p, p.status.stage, p.status.point)
  {
  }

  lemma JobSame(c: Config, log: seq<Record>, r: ReqId, q: Req, p: Req, stage: Stage, since: Index, job: Job)
    requires p == q.(status := p.status, origin := p.origin)
    ensures JobOk(c, log, r, p, stage, since, job) <==> JobOk(c, log, r, q, stage, since, job)
  {
  }

  lemma KeepsSkipPolicy(c: Config, s: State, r: ReqId)
    requires Inv(c, s) && CanSkip(c, s, r)
    ensures Inv(c, DoSkip(c, s, r))
  {
    assert ReqOk(c, s.log, s.now, r, s.reqs[r]);
    StepOfOne(c, s, DoSkip(c, s, r), r);
  }

  lemma KeepsJoin(c: Config, s: State, r: ReqId)
    requires Inv(c, s) && CanJoin(c, s, r)
    ensures Inv(c, DoJoin(c, s, r))
  {
    hide PassOk, DataOk, OwnerOk, ReplyOk, LogOk, CacheInv, FlightInv, HistoryInv, Hits;
    var q := s.reqs[r];
    var t := DoJoin(c, s, r);
    assert ReqOk(c, s.log, s.now, r, q);
    if InPds(q.status.point) {
      JobMoves(c, s, t, r, WaitPds);
    } else {
      var p := t.reqs[r];
      assert StageOk(c, s.log, r, q, q.status.stage, Wait);
      StageSame(c, s.log, r, q, p, q.status.stage, Wait);
      StepOfOne(c, s, t, r);
    }
  }

  lemma WithJobLeads(s: State, t: State, r: ReqId, job: Job)
    requires r in s.reqs && s.reqs[r].status.Active? && s.reqs[r].status.point.Run?
    requires t.reqs == WithJob(s, r, job)
    requires (job.QueryPds? || job.KeepPds?) <==> (JobOf(s, r).QueryPds? || JobOf(s, r).KeepPds?)
    ensures forall k :: Leads(t.reqs[r], k) <==> Leads(s.reqs[r], k)
  {
  }

  /** A request at a new job of the same evaluation. */
  lemma JobMoves(c: Config, s: State, t: State, r: ReqId, job: Job)
    requires Inv(c, s) && r in s.reqs && s.reqs[r].status.Active? && s.reqs[r].status.point.Run?
    requires t == s.(log := t.log, reqs := WithJob(s, r, job))
    requires FreshOk(s, t.log) && forall i: nat :: |s.log| <= i < |t.log| ==> Mild(t.log[i].what)
    requires var q := s.reqs[r]; JobOk(c, t.log, r, q, q.status.stage, q.status.point.since, job)
    requires (job.QueryPds? || job.KeepPds?) <==> (JobOf(s, r).QueryPds? || JobOf(s, r).KeepPds?)
    requires InPds(Run(0, job)) <==> InPds(s.reqs[r].status.point)
    ensures Inv(c, t)
  {
    var q := s.reqs[r];
    var p := t.reqs[r];
    var stage, since := q.status.stage, q.status.point.since;
    hide PassOk, DataOk, OwnerOk, ReplyOk, JobOk, LogOk, CacheInv, FlightInv, HistoryInv, FreshOk, Leads;
    assert ReqOk(c, s.log, s.now, r, q);
    WithJobLeads(s, t, r, job);
    StageGrows(c, s.log, t.log, r, q, stage, q.status.point);
    assert StageOk(c, t.log, r, q, stage, Run(since, job));
    StageSame(c, t.log, r, q, p, stage, Run(since, job));
    OpenGrows(s.log, t.log, since, StageKey(q, stage), r, q.did);
    JobSame(c, t.log, r, q, p, stage, since, job);
    StepOfOne(c, s, t, r);
  }

  lemma KeepsPolicyReply(c: Config, s: State, r: ReqId, decision: Decision)
    requires Inv(c, s) && CanReply(c, s, r)
    ensures Inv(c, DoPolicyReply(c, s, r, decision))
  {
    hide PassOk, DataOk, OwnerOk, ReplyOk, CacheInv, FlightInv, HistoryInv;
    assert ReqOk(c, s.log, s.now, r, s.reqs[r]);
    JobMoves(c, s, DoPolicyReply(c, s, r, decision), r, Keep(Ruling(decision), |s.log|));
  }

  lemma KeepsPdsReply(c: Config, s: State, r: ReqId, url: Url)
    requires Inv(c, s) && CanPdsReply(c, s, r)
    ensures Inv(c, DoPdsReply(c, s, r, url))
  {
    hide PassOk, DataOk, OwnerOk, ReplyOk, CacheInv, FlightInv, HistoryInv;
    var t := DoPdsReply(c, s, r, url);
    var pdsSince := JobOf(s, r).pdsSince;
    assert ReqOk(c, s.log, s.now, r, s.reqs[r]);
    OpenGrows(s.log, t.log, pdsSince, PdsKey(s.reqs[r].did), r, s.reqs[r].did);
    JobMoves(c, s, t, r, KeepPds(url, |s.log|, pdsSince));
  }

  /** The origin's success is recorded by an evaluation still running. */
  lemma OriginLogged(c: Config, s: State, r: ReqId)
    requires Inv(c, s) && CanOriginReply(c, s, r)
    ensures var t := DoOriginReply(c, s, r, Ok); FreshOk(s, t.log) && t.log[|s.log|].what.OriginSaid?
    ensures var q := s.reqs[r]; Fetched(c, DoOriginReply(c, s, r, Ok).log, q, q.status.point.since, |s.log|)
  {
    hide PassOk, DataOk, OwnerOk, ReplyOk, CacheInv, FlightInv, HistoryInv, LogOk, StageOk;
    var t := DoOriginReply(c, s, r, Ok);
    var q, job := s.reqs[r], JobOf(s, r);
    assert ReqOk(c, s.log, s.now, r, q);
    OutlivesGrows(s.log, t.log, Since(s.log, job.pds), q.status.point.since, PdsKey(q.did));
  }

  lemma KeepsOriginReply(c: Config, s: State, r: ReqId, answer: OriginAnswer)
    requires Inv(c, s) && CanOriginReply(c, s, r)
    ensures Inv(c, DoOriginReply(c, s, r, answer))
  {
    hide PassOk, DataOk, OwnerOk, ReplyOk, CacheInv, FlightInv, HistoryInv, LogOk, FreshOk, Fetched, RecordOk;
    var t := DoOriginReply(c, s, r, answer);
    var q := s.reqs[r];
    if answer == Ok {
      OriginLogged(c, s, r);
      FetchedKeeps(c, t.log, r, q, q.status.stage, q.status.point.since, |s.log|);
    } else {
      assert ReqOk(c, s.log, s.now, r, q);
      NothingLogged(s);
    }
    JobMoves(c, s, t, r, t.reqs[r].status.point.job);
  }

  lemma NothingLogged(s: State)
    ensures FreshOk(s, s.log)
  {
  }

  lemma FetchedKeeps(c: Config, log: seq<Record>, r: ReqId, q: Req, stage: Stage, since: Index, ev: Index)
    requires Fetched(c, log, q, since, ev)
    ensures stage.DataFetch? ==> JobOk(c, log, r, q, stage, since, Body(ev))
    ensures stage.OwnerCheck? ==> JobOk(c, log, r, q, stage, since, Keep(Owned, ev))
  {
  }

  lemma KeepsBodyRead(c: Config, s: State, r: ReqId,
                      declared: Option<BodyStreams.U64>, chunks: seq<BodyStreams.Chunk>)
    requires Inv(c, s) && CanBodyRead(c, s, r, declared, chunks)
    ensures Inv(c, DoBodyRead(c, s, r, declared, chunks))
  {
    hide PassOk, DataOk, OwnerOk, ReplyOk, CacheInv, FlightInv, HistoryInv, Panics, Unended;
    var t := DoBodyRead(c, s, r, declared, chunks);
    assert ReqOk(c, s.log, s.now, r, s.reqs[r]);
    DownloadedFits(c.rules, declared, chunks);
    JobMoves(c, s, t, r, t.reqs[r].status.point.job);
  }

  // ---------- values returned by a cache call ----------

  /** A value fit to be returned, now, by a call on key `k`. */
  predicate Usable(c: Config, log: seq<Record>, now: Time, k: Key, v: Value, ev: Index) {
    && Backs(c, log, k, v, ev)
    && Outlives(log, Since(log, ev), |log|, k)
    && match k
       case PolicyKey(_, _) => now <= TimeOf(log, ev) + c.policyTtl + c.timeout
       case PdsKey(_) => now <= TimeOf(log, ev) + c.identityTtl + c.timeout
       case DataKey(_) => true
       case OwnerKey(_, _) =>
         && now <= TimeOf(log, ev) + c.ownershipTtl + c.timeout
         && now <= PdsTime(log, ev) + c.ownershipTtl + c.identityTtl + 2 * c.timeout
  }

  /** An evaluation still open outlives every purge so far. */
  lemma OpenOutlives(log: seq<Record>, since: Index, n: nat, k: Key)
    requires Unended(log, since, n)
    ensures Outlives(log, since, n, k)
  {
  }

  lemma HitIsUsable(c: Config, s: State, k: Key)
    requires CacheInv(c, s) && Hits(c, s, k)
    ensures Usable(c, s.log, s.now, k, s.cache[k].value, s.cache[k].ev)
  {
    assert EntryOk(c, s.log, s.now, k, s.cache[k]);
  }

  lemma OutlivesEarlier(log: seq<Record>, since: Index, n: nat, m: nat, k: Key)
    requires Outlives(log, since, n, k) && m <= n
    ensures Outlives(log, since, m, k)
  {
  }

  lemma DeliverPds(c: Config, log: seq<Record>, now: Time, r: ReqId, q: Req, v: Value, ev: Index)
    requires ReqOk(c, log, now, r, q) && q.status.Active? && InPds(q.status.point)
    requires Usable(c, log, now, PdsKey(q.did), v, ev)
    ensures ReqOk(c, log, now, r, Deliver(q, v, ev, now))
  {
    hide PassOk, DataOk, OwnerOk, ReplyOk, Unended;
    var p := Deliver(q, v, ev, now);
    var stage, point := q.status.stage, q.status.point;
    OutlivesEarlier(log, Since(log, ev), |log|, point.since, PdsKey(q.did));
    assert StageOk(c, log, r, q, stage, point);
    JobSame(c, log, r, q, p, stage, point.since, Fetch(v.url, ev));
    assert JobOk(c, log, r, q, stage, point.since, Fetch(v.url, ev));
    StageSamePds(c, log, r, q, p);
  }

  lemma DeliverOuter(c: Config, log: seq<Record>, now: Time, r: ReqId, q: Req, v: Value, ev: Index)
    requires ReqOk(c, log, now, r, q) && q.status.Active? && !InPds(q.status.point) && now <= q.start + c.timeout
    requires Usable(c, log, now, Target(q), v, ev)
    requires !q.status.point.Run? || q.status.point.job.Keep?
    requires q.status.stage.PolicyCheck? ==> c.hasPolicy
    ensures ReqOk(c, log, now, r, Deliver(q, v, ev, now))
  {
    hide Unended, Outlives;
    var p := Deliver(q, v, ev, now);
    OutlivesEarlier(log, Since(log, ev), |log|, q.born, Target(q));
  }

  /** A request whose call returns a usable value is fine afterwards. */
  lemma DeliverOk(c: Config, log: seq<Record>, now: Time, r: ReqId, q: Req, v: Value, ev: Index)
    requires ReqOk(c, log, now, r, q) && q.status.Active? && now <= q.start + c.timeout
    requires Usable(c, log, now, Target(q), v, ev)
    requires Asks(q) || Waiting(q) || q.status.point.job.Keep? || q.status.point.job.KeepPds?
    requires q.status.stage.PolicyCheck? ==> c.hasPolicy
    ensures ReqOk(c, log, now, r, Deliver(q, v, ev, now))
  {
    hide ReqOk, Usable, Deliver;
    if InPds(q.status.point) {
      DeliverPds(c, log, now, r, q, v, ev);
    } else {
      DeliverOuter(c, log, now, r, q, v, ev);
    }
  }

  lemma DeliverLeads(q: Req, v: Value, ev: Index, now: Time, k: Key)
    requires q.status.Active? && (Asks(q) || Waiting(q) || q.status.point.job.Keep? || q.status.point.job.KeepPds?)
    requires InPds(q.status.point) ==> v.Endpoint?
    requires !InPds(q.status.point) && q.status.stage.DataFetch? ==> v.Content?
    ensures Leads(Deliver(q, v, ev, now), k) <==> Leads(q, k) && k != Target(q)
  {
  }

  lemma AccessedEntry(c: Config, s: State, t: State, k: Key)
    requires CacheInv(c, s) && k in s.cache
    requires t == s.(cache := s.cache[k := s.cache[k].(used := s.now)])
    ensures CacheInv(c, t)
  {
    forall x | x in t.cache
      ensures EntryOk(c, t.log, t.now, x, t.cache[x])
    {
      assert EntryOk(c, s.log, s.now, x, s.cache[x]);
    }
  }

  lemma AccessedFlight(s: State, t: State, k: Key)
    requires FlightInv(s) && k in s.cache
    requires t == s.(cache := s.cache[k := s.cache[k].(used := s.now)])
    ensures FlightInv(t)
  {
  }

  lemma AccessedHistory(s: State, t: State, k: Key)
    requires HistoryInv(s) && k in s.cache
    requires t == s.(cache := s.cache[k := s.cache[k].(used := s.now)])
    ensures HistoryInv(t)
  {
    assert t.cache.Keys == s.cache.Keys;
  }

  lemma ReqInvSame(c: Config, s: State, t: State)
    requires ReqInv(c, s) && t.log == s.log && t.now == s.now && t.reqs == s.reqs
    ensures ReqInv(c, t)
  {
    forall r | r in t.reqs
      ensures ReqOk(c, t.log, t.now, r, t.reqs[r])
    {
      assert ReqOk(c, s.log, s.now, r, s.reqs[r]);
    }
  }

  /** Recording an access changes nothing but the idle time. */
  lemma KeepsAccess(c: Config, s: State, t: State, k: Key)
    requires Inv(c, s) && k in s.cache
    requires t == s.(cache := s.cache[k := s.cache[k].(used := s.now)])
    ensures Inv(c, t)
  {
    AccessedEntry(c, s, t, k);
    AccessedFlight(s, t, k);
    AccessedHistory(s, t, k);
    ReqInvSame(c, s, t);
  }

  lemma HitMoves(c: Config, s: State, r: ReqId)
    requires CacheInv(c, s) && ReqInv(c, s) && CanHit(c, s, r)
    ensures var t := DoHit(c, s, r);
            && ReqOk(c, t.log, t.now, r, t.reqs[r])
            && (forall x :: Leads(t.reqs[r], x) <==> Leads(s.reqs[r], x))
  {
    hide ReqOk, EntryOk, Usable, Outlives;
    var q := s.reqs[r];
    var k := Target(q);
    var e := s.cache[k];
    HitIsUsable(c, s, k);
    UsableKind(c, s.log, s.now, k, e.value, e.ev);
    DeliverOk(c, s.log, s.now, r, q, e.value, e.ev);
    forall x
      ensures Leads(DoHit(c, s, r).reqs[r], x) <==> Leads(q, x)
    {
      DeliverLeads(q, e.value, e.ev, s.now, x);
    }
  }

  lemma UsableKind(c: Config, log: seq<Record>, now: Time, k: Key, v: Value, ev: Index)
    requires Usable(c, log, now, k, v, ev)
    ensures k.PdsKey? ==> v.Endpoint?
    ensures k.DataKey? ==> v.Content?
  {
  }

  lemma KeepsHit(c: Config, s: State, r: ReqId)
    requires Inv(c, s) && CanHit(c, s, r)
    ensures Inv(c, DoHit(c, s, r))
  {
    hide LogOk, CacheInv, FlightInv, ReqInv, HistoryInv, ReqOk, Leads;
    var k := Target(s.reqs[r]);
    var u := s.(cache := s.cache[k := s.cache[k].(used := s.now)]);
    HitMoves(c, s, r);
    KeepsAccess(c, s, u, k);
    StepOfOne(c, u, DoHit(c, s, r), r);
  }

  // ---------- evaluations begin, store and end ----------

  /** A record of the present is newer than every evaluation recorded so far. */
  lemma NoEndYet(log: seq<Record>, now: Time, since: Index)
    requires LogOk(log, now) && since >= |log|
    ensures Unended(log, since, |log|)
  {
    forall j: nat | j < |log|
      ensures !IsEndOf(log[j].what, since)
    {
      assert RecordOk(log, j);
    }
  }

  lemma LeadLog(c: Config, s: State, r: ReqId)
    requires LogOk(s.log, s.now) && CanLead(c, s, r)
    ensures var t := DoLead(c, s, r); FreshOk(s, t.log) && LogOk(t.log, t.now)
    ensures var t := DoLead(c, s, r);
            forall i: nat :: |s.log| <= i < |t.log| ==> t.log[i].what.Began? || t.log[i].what.Expired?
    ensures var t := DoLead(c, s, r); var since: nat := |t.log| - 1;
            |s.log| <= since && t.log[since].what == Began(Target(s.reqs[r]), r, s.reqs[r].did)
  {
    LogGrows(s.log, s.now, DoLead(c, s, r).log, s.now);
  }

  lemma LeadHistory(c: Config, s: State, r: ReqId)
    requires HistoryInv(s) && CanLead(c, s, r)
    ensures HistoryInv(DoLead(c, s, r))
  {
    var t := DoLead(c, s, r);
    var k := Target(s.reqs[r]);
    if k in s.cache {
      assert Takes(t.log[|s.log|].what, k);
      assert TakenBetween(t.log, |s.log| - 1, |t.log|, k);
    }
    HistoryGrows(s, t);
  }

  /** The evaluation just begun is open. */
  lemma LeadOpens(c: Config, s: State, r: ReqId)
    requires LogOk(s.log, s.now) && CanLead(c, s, r)
    ensures var t := DoLead(c, s, r); var since: nat := |t.log| - 1;
            Open(t.log, since, Target(s.reqs[r]), r, s.reqs[r].did)
  {
    var t := DoLead(c, s, r);
    var since: nat := |t.log| - 1;
    LeadLog(c, s, r);
    NoEndYet(s.log, s.now, since);
    forall j: nat | j < |t.log|
      ensures !IsEndOf(t.log[j].what, since)
    {
      if j < |s.log| {
        assert t.log[j] == s.log[j];
      }
    }
  }

  /** Beginning an evaluation does not touch what a request has gathered. */
  lemma LedOk(c: Config, log: seq<Record>, now: Time, r: ReqId, q: Req, since: Index)
    requires ReqOk(c, log, now, r, q) && (Asks(q) || Waiting(q))
    requires q.status.stage.PolicyCheck? ==> c.hasPolicy
    requires Open(log, since, Target(q), r, q.did) && q.born <= since
    requires InPds(q.status.point) ==> q.status.point.since < since
    ensures ReqOk(c, log, now, r, Led(q, since))
  {
    hide PassOk, DataOk, OwnerOk, ReplyOk, Unended;
    var p := Led(q, since);
    var stage := q.status.stage;
    assert StageOk(c, log, r, q, stage, q.status.point);
    assert StageOk(c, log, r, q, stage, p.status.point);
    StageSame(c, log, r, q, p, stage, p.status.point);
  }

  lemma LedLeads(q: Req, since: Index, k: Key)
    requires Asks(q) || Waiting(q)
    ensures Leads(Led(q, since), k) <==> Leads(q, k) || k == Target(q)
  {
  }

  lemma LeadIsOk(c: Config, s: State, r: ReqId)
    requires LogOk(s.log, s.now) && ReqInv(c, s) && CanLead(c, s, r)
    ensures var t := DoLead(c, s, r); ReqOk(c, t.log, t.now, r, t.reqs[r])
  {
    hide LogOk, ReqOk, RecordOk, Unended, Hits;
    var t := DoLead(c, s, r);
    var q := s.reqs[r];
    var since: nat := |t.log| - 1;
    LeadLog(c, s, r);
    LeadOpens(c, s, r);
    ReqGrows(c, s.log, s.now, t.log, s.now, r, q);
    ReqBounds(c, s, r);
    LedOk(c, t.log, s.now, r, q, since);
  }

  /** What a request remembers lies in the past. */
  lemma ReqBounds(c: Config, s: State, r: ReqId)
    requires ReqInv(c, s) && r in s.reqs
    ensures s.reqs[r].born <= |s.log|
    ensures var q := s.reqs[r]; q.status.Active? && q.status.point.Run? ==> q.status.point.since < |s.log|
  {
    assert ReqOk(c, s.log, s.now, r, s.reqs[r]);
  }

  lemma FlightBegins(s: State, t: State, r: ReqId, k: Key)
    requires FlightInv(s) && r in s.reqs && r in t.reqs && k !in s.flight
    requires t.flight == s.flight[k := r] && t.reqs == s.reqs[r := t.reqs[r]]
    requires t.cache.Keys == s.cache.Keys - {k}
    requires forall x :: Leads(t.reqs[r], x) <==> Leads(s.reqs[r], x) || x == k
    ensures FlightInv(t)
  {
  }

  lemma LeadFlight(c: Config, s: State, r: ReqId)
    requires FlightInv(s) && CanLead(c, s, r)
    ensures FlightInv(DoLead(c, s, r))
  {
    hide FlightInv, Leads, Hits;
    var t := DoLead(c, s, r);
    var q := s.reqs[r];
    forall x
      ensures Leads(t.reqs[r], x) <==> Leads(q, x) || x == Target(q)
    {
      LedLeads(q, |t.log| - 1, x);
    }
    FlightBegins(s, t, r, Target(q));
  }

  lemma LeadCache(c: Config, s: State, r: ReqId)
    requires CacheInv(c, s) && CanLead(c, s, r)
    ensures CacheInv(c, DoLead(c, s, r))
  {
    hide EntryOk, RecordOk, Hits;
    CacheGrows(c, s, DoLead(c, s, r));
  }

  lemma LeadReqs(c: Config, s: State, r: ReqId)
    requires LogOk(s.log, s.now) && ReqInv(c, s) && CanLead(c, s, r)
    ensures ReqInv(c, DoLead(c, s, r))
  {
    hide LogOk, ReqOk;
    var t := DoLead(c, s, r);
    LeadIsOk(c, s, r);
    LeadLog(c, s, r);
    OthersGrow(c, s, t.log, s.now, {r});
  }

  lemma KeepsLead(c: Config, s: State, r: ReqId)
    requires Inv(c, s) && CanLead(c, s, r)
    ensures Inv(c, DoLead(c, s, r))
  {
    hide LogOk, CacheInv, FlightInv, ReqInv, HistoryInv, DoLead, CanLead;
    LeadLog(c, s, r);
    LeadCache(c, s, r);
    LeadHistory(c, s, r);
    LeadReqs(c, s, r);
    LeadFlight(c, s, r);
  }
}
