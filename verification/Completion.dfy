/** The steps that end evaluations or change the caches keep the invariant; hence it holds on every run. */
module Completion {
  import opened BlobCids
  import opened BlobRules
  import opened Protocol
  import opened Invariants
  import opened Preservation

  /** An entry written, now, by an evaluation still open. */
  lemma NewEntryOk(c: Config, log: seq<Record>, now: Time, more: seq<Record>, k: Key, v: Value, ev: Index)
    requires LogOk(log, now) && log <= more && |more| == |log| + 1
    requires !more[|log|].what.Purged? && more[|log|].time <= now
    requires Backs(c, log, k, v, ev) && ev < |log|
    requires Unended(log, Since(log, ev), |log|)
    requires now <= TimeOf(log, ev) + c.timeout
    requires k.OwnerKey? ==> now <= PdsTime(log, ev) + c.identityTtl + 2 * c.timeout
    ensures EntryOk(c, more, now, k, Entry(v, now, now, ev, |log|))
  {
    UnendedGrows(log, more, Since(log, ev), |log|);
    assert forall j: nat | j < |log| :: more[j] == log[j];
  }

  lemma CacheWrites(c: Config, s: State, t: State, k: Key)
    requires CacheInv(c, s) && s.log <= t.log && |t.log| == |s.log| + 1 && t.now == s.now
    requires !t.log[|s.log|].what.Purged? && (forall x :: Puts(t.log[|s.log|].what, x) ==> x == k)
    requires k in t.cache && t.cache == s.cache[k := t.cache[k]]
    requires EntryOk(c, t.log, t.now, k, t.cache[k])
    ensures CacheInv(c, t)
  {
    hide EntryOk;
    forall x | x in t.cache
      ensures EntryOk(c, t.log, t.now, x, t.cache[x])
    {
      if x != k {
        EntryGrows(c, s.log, s.now, t.log, t.now, x, s.cache[x]);
      }
    }
  }

  // ---------- Verify ----------

  /** What an active request at a job guarantees. */
  lemma JobFacts(c: Config, s: State, r: ReqId)
    requires ReqInv(c, s) && AtJob(c, s, r)
    ensures var q := s.reqs[r];
            && StageOk(c, s.log, r, q, q.status.stage, q.status.point)
            && Open(s.log, q.status.point.since, StageKey(q, q.status.stage), r, q.did)
            && q.born <= q.status.point.since
            && JobOk(c, s.log, r, q, q.status.stage, q.status.point.since, JobOf(s, r))
            && q.start <= s.now && q.born <= |s.log|
  {
    assert ReqOk(c, s.log, s.now, r, s.reqs[r]);
  }

  lemma KeepsRejection(c: Config, s: State, r: ReqId)
    requires Inv(c, s) && CanVerify(c, s, r)
    requires Accept(c.rules, s.reqs[r].cid, JobOf(s, r).bytes).Failure?
    ensures Inv(c, DoVerify(c, s, r))
  {
    hide LogOk, CacheInv, FlightInv, ReqInv, HistoryInv, Accept;
    JobFacts(c, s, r);
    AcceptIsSupported(c.rules, s.reqs[r].cid, JobOf(s, r).bytes);
    JobMoves(c, s, DoVerify(c, s, r), r, DoVerify(c, s, r).reqs[r].status.point.job);
  }

  lemma VerifiedReq(c: Config, s: State, r: ReqId)
    requires LogOk(s.log, s.now) && ReqInv(c, s) && CanVerify(c, s, r)
    requires Accept(c.rules, s.reqs[r].cid, JobOf(s, r).bytes).Success?
    ensures var t := DoVerify(c, s, r); ReqOk(c, t.log, t.now, r, t.reqs[r])
  {
    hide PassOk, DataOk, OwnerOk, ReplyOk, LogOk, ReqInv;
    var t := DoVerify(c, s, r);
    var q, p := s.reqs[r], t.reqs[r];
    var since := q.status.point.since;
    var job := JobOf(s, r);
    var blob := Accept(c.rules, q.cid, job.bytes).value;
    JobFacts(c, s, r);
    AcceptIff(c.rules, q.cid, job.bytes, blob);
    StageGrows(c, s.log, t.log, r, q, q.status.stage, q.status.point);
    assert StageOk(c, t.log, r, q, q.status.stage, p.status.point);
    StageSame(c, t.log, r, q, p, q.status.stage, p.status.point);
    OpenGrows(s.log, t.log, since, StageKey(q, q.status.stage), r, q.did);
    assert JobOk(c, t.log, r, q, q.status.stage, since, Keep(Content(blob), job.ev));
    JobSame(c, t.log, r, q, p, q.status.stage, since, Keep(Content(blob), job.ev));
  }

  lemma VerifiedCache(c: Config, s: State, r: ReqId)
    requires LogOk(s.log, s.now) && CacheInv(c, s) && ReqInv(c, s) && CanVerify(c, s, r)
    requires Accept(c.rules, s.reqs[r].cid, JobOf(s, r).bytes).Success?
    ensures var t := DoVerify(c, s, r); LogOk(t.log, t.now) && CacheInv(c, t)
  {
    hide EntryOk, ReqInv, StageOk, Accept;
    var t := DoVerify(c, s, r);
    var q := s.reqs[r];
    JobFacts(c, s, r);
    var k := OwnerKey(q.cid, q.did);
    NewEntryOk(c, s.log, s.now, t.log, k, Owned, JobOf(s, r).ev);
    CacheWrites(c, s, t, k);
    RecordGrowsBack(s.log, t.log, q.status.point.since);
    LogGrows(s.log, s.now, t.log, s.now);
  }

  lemma RecordGrowsBack(log: seq<Record>, more: seq<Record>, since: Index)
    requires log <= more && since < |log|
    ensures more[since] == log[since]
  {
  }

  lemma KeepsVerify(c: Config, s: State, r: ReqId)
    requires Inv(c, s) && CanVerify(c, s, r)
    ensures Inv(c, DoVerify(c, s, r))
  {
    hide LogOk, CacheInv, ReqOk, HistoryInv, Accept, FlightInv;
    var t := DoVerify(c, s, r);
    if Accept(c.rules, s.reqs[r].cid, JobOf(s, r).bytes).Failure? {
      KeepsRejection(c, s, r);
    } else {
      var k := OwnerKey(s.reqs[r].cid, s.reqs[r].did);
      VerifiedCache(c, s, r);
      VerifiedReq(c, s, r);
      OthersGrow(c, s, t.log, s.now, {r});
      assert t.cache.Keys == s.cache.Keys + {k};
      HistoryPut(s, t, k);
      FlightAfterNote(c, s, r);
    }
  }

  lemma FlightAfterNote(c: Config, s: State, r: ReqId)
    requires FlightInv(s) && CanVerify(c, s, r)
    requires Accept(c.rules, s.reqs[r].cid, JobOf(s, r).bytes).Success?
    ensures FlightInv(DoVerify(c, s, r))
  {
    hide Accept, FlightInv;
    NoteKeepsLeads(c, s, r);
    FlightNoted(s, DoVerify(c, s, r), r, OwnerKey(s.reqs[r].cid, s.reqs[r].did));
  }

  lemma NoteKeepsLeads(c: Config, s: State, r: ReqId)
    requires CanVerify(c, s, r)
    ensures forall k :: Leads(DoVerify(c, s, r).reqs[r], k) <==> Leads(s.reqs[r], k)
  {
    hide Accept, Logged;
  }

  /** An ownership entry may appear while its key is evaluated. */
  lemma FlightNoted(s: State, t: State, r: ReqId, k: Key)
    requires FlightInv(s) && r in s.reqs && r in t.reqs && k.OwnerKey?
    requires t.flight == s.flight && t.reqs == s.reqs[r := t.reqs[r]] && t.cache.Keys == s.cache.Keys + {k}
    requires forall x :: Leads(t.reqs[r], x) <==> Leads(s.reqs[r], x)
    ensures FlightInv(t)
  {
    hide Leads;
  }

  // ---------- Store ----------

  /** What a leader about to store has in hand. */
  lemma StoreFacts(c: Config, s: State, r: ReqId)
    requires ReqInv(c, s) && CanStore(c, s, r)
    ensures var q := s.reqs[r]; var k := Target(q); var job := JobOf(s, r); var since := StoredSince(q);
            && Open(s.log, since, k, r, q.did)
            && Since(s.log, job.ev) == since && job.ev < |s.log|
            && s.now <= TimeOf(s.log, job.ev) + c.timeout
            && Backs(c, s.log, k, StoredValue(job), job.ev)
            && (k.OwnerKey? ==> s.now <= PdsTime(s.log, job.ev) + c.identityTtl + 2 * c.timeout)
            && (q.status.stage.PolicyCheck? ==> c.hasPolicy)
  {
    JobFacts(c, s, r);
  }

  lemma StoreUsable(c: Config, s: State, r: ReqId)
    requires ReqInv(c, s) && CanStore(c, s, r)
    ensures Usable(c, s.log, s.now, Target(s.reqs[r]), StoredValue(JobOf(s, r)), JobOf(s, r).ev)
  {
    hide ReqOk;
    StoreFacts(c, s, r);
    OpenOutlives(s.log, StoredSince(s.reqs[r]), |s.log|, Target(s.reqs[r]));
  }

  lemma StoreLog(c: Config, s: State, r: ReqId)
    requires LogOk(s.log, s.now) && ReqInv(c, s) && CanStore(c, s, r)
    ensures LogOk(DoStore(c, s, r).log, s.now)
  {
    hide ReqOk, Backs;
    var t := DoStore(c, s, r);
    StoreFacts(c, s, r);
    RecordGrowsBack(s.log, t.log, StoredSince(s.reqs[r]));
    LogGrows(s.log, s.now, t.log, s.now);
  }

  lemma StoreCache(c: Config, s: State, r: ReqId)
    requires LogOk(s.log, s.now) && CacheInv(c, s) && ReqInv(c, s) && CanStore(c, s, r)
    ensures CacheInv(c, DoStore(c, s, r))
  {
    hide ReqOk, Backs, LogOk, EntryOk;
    var t := DoStore(c, s, r);
    var k := Target(s.reqs[r]);
    StoreFacts(c, s, r);
    NewEntryOk(c, s.log, s.now, t.log, k, StoredValue(JobOf(s, r)), JobOf(s, r).ev);
    CacheWrites(c, s, t, k);
  }

  lemma StoreHistory(c: Config, s: State, r: ReqId)
    requires FlightInv(s) && HistoryInv(s) && CanStore(c, s, r)
    ensures HistoryInv(DoStore(c, s, r))
  {
    hide HistoryInv;
    var k := Target(s.reqs[r]);
    assert Leads(s.reqs[r], k);
    HistoryPut(s, DoStore(c, s, r), k);
  }

  /** The evaluation that ends is not one that another request, or an outer call, is running. */
  lemma EndIsOwn(c: Config, s: State, r: ReqId, w: ReqId, since: Index, k: Key, did: Did)
    requires ReqInv(c, s) && w in s.reqs && s.reqs[w].status.Active? && s.reqs[w].status.point.Run?
    requires Open(s.log, since, k, r, did)
    ensures s.reqs[w].status.point.since == since ==> w == r && k == StageKey(s.reqs[w], s.reqs[w].status.stage)
    ensures var job := s.reqs[w].status.point.job;
            (job.QueryPds? || job.KeepPds?) && job.pdsSince == since ==> w == r && k == PdsKey(s.reqs[w].did)
  {
    assert ReqOk(c, s.log, s.now, w, s.reqs[w]);
  }

  lemma StoreReceiver(c: Config, s: State, r: ReqId, w: ReqId)
    requires ReqInv(c, s) && CanStore(c, s, r) && Receives(c, s, r, Target(s.reqs[r]), w)
    ensures var t := DoStore(c, s, r); ReqOk(c, t.log, t.now, w, t.reqs[w])
  {
    hide ReqOk, Usable, Backs;
    var t := DoStore(c, s, r);
    var k, job, since := Target(s.reqs[r]), JobOf(s, r), StoredSince(s.reqs[r]);
    var q := s.reqs[w];
    StoreFacts(c, s, r);
    StoreUsable(c, s, r);
    WaiterHasPolicy(c, s, w);
    DeliverOk(c, s.log, s.now, w, q, StoredValue(job), job.ev);
    var p := Deliver(q, StoredValue(job), job.ev, s.now);
    if q.status.point.Run? {
      EndIsOwn(c, s, r, w, since, k, s.reqs[r].did);
    }
    ReqGrows(c, s.log, s.now, t.log, s.now, w, p);
  }

  lemma WaiterHasPolicy(c: Config, s: State, w: ReqId)
    requires ReqInv(c, s) && w in s.reqs && s.reqs[w].status.Active?
    ensures s.reqs[w].status.stage.PolicyCheck? && !s.reqs[w].status.point.Ask? ==> c.hasPolicy
  {
    assert ReqOk(c, s.log, s.now, w, s.reqs[w]);
  }

  /** A request outside the evaluation that ends is undisturbed by its end. */
  lemma BystanderOk(c: Config, s: State, log: seq<Record>, r: ReqId, w: ReqId, since: Index, k: Key, did: Did)
    requires ReqInv(c, s) && w in s.reqs && w != r && Open(s.log, since, k, r, did)
    requires s.log <= log && |log| == |s.log| + 1
    requires forall x :: x != since ==> !IsEndOf(log[|s.log|].what, x)
    ensures ReqOk(c, log, s.now, w, s.reqs[w])
  {
    hide ReqOk;
    if s.reqs[w].status.Active? && s.reqs[w].status.point.Run? {
      EndIsOwn(c, s, r, w, since, k, did);
    }
    ReqGrows(c, s.log, s.now, log, s.now, w, s.reqs[w]);
  }

  lemma StoreReqs(c: Config, s: State, r: ReqId)
    requires ReqInv(c, s) && CanStore(c, s, r)
    ensures ReqInv(c, DoStore(c, s, r))
  {
    hide ReqOk, Backs;
    var t := DoStore(c, s, r);
    var k := Target(s.reqs[r]);
    StoreFacts(c, s, r);
    forall w | w in t.reqs
      ensures ReqOk(c, t.log, t.now, w, t.reqs[w])
    {
      if Receives(c, s, r, k, w) {
        StoreReceiver(c, s, r, w);
      } else {
        BystanderOk(c, s, t.log, r, w, StoredSince(s.reqs[r]), k, s.reqs[r].did);
      }
    }
  }

  /** After an evaluation of `k` led by `r` ends: whoever was affected no longer leads `k`, nothing else moved. */
  lemma FlightEnds(s: State, t: State, r: ReqId, k: Key)
    requires FlightInv(s) && r in s.reqs && Leads(s.reqs[r], k)
    requires t.flight == s.flight - {k} && t.reqs.Keys == s.reqs.Keys
    requires forall x :: x in t.cache && x !in s.cache ==> x == k
    requires forall w, x :: w in s.reqs ==> (Leads(t.reqs[w], x) <==> Leads(s.reqs[w], x) && x != k)
    ensures FlightInv(t)
  {
    hide Leads;
    forall x | x in t.flight
      ensures t.flight[x] in t.reqs && Leads(t.reqs[t.flight[x]], x)
    {
      assert s.flight[x] in s.reqs && Leads(s.reqs[s.flight[x]], x);
    }
  }

  lemma StoreFlight(c: Config, s: State, r: ReqId)
    requires FlightInv(s) && ReqInv(c, s) && CanStore(c, s, r)
    ensures FlightInv(DoStore(c, s, r))
  {
    hide ReqOk, FlightInv, Leads, Backs;
    var t := DoStore(c, s, r);
    var k, job := Target(s.reqs[r]), JobOf(s, r);
    StoreFacts(c, s, r);
    StoreUsable(c, s, r);
    UsableKind(c, s.log, s.now, k, StoredValue(job), job.ev);
    forall w, x | w in s.reqs
      ensures Leads(t.reqs[w], x) <==> Leads(s.reqs[w], x) && x != k
    {
      if Receives(c, s, r, k, w) {
        DeliverLeads(s.reqs[w], StoredValue(job), job.ev, s.now, x);
      } else {
        OnlyLeader(s, r, w, k, x);
      }
    }
    LeaderLeads(s, r);
    FlightEnds(s, t, r, k);
  }

  lemma OnlyLeader(s: State, r: ReqId, w: ReqId, k: Key, x: Key)
    requires FlightInv(s) && r in s.reqs && s.reqs[r].status.Active? && s.reqs[r].status.point.Run?
    requires k == Target(s.reqs[r]) && !s.reqs[r].status.point.job.AskPds? && !s.reqs[r].status.point.job.WaitPds?
    requires w in s.reqs && w != r
    ensures Leads(s.reqs[w], x) ==> x != k
  {
    hide Leads;
    LeaderLeads(s, r);
    assert k in s.flight && s.flight[k] == r;
  }

  lemma LeaderLeads(s: State, r: ReqId)
    requires r in s.reqs && s.reqs[r].status.Active? && s.reqs[r].status.point.Run?
    requires !s.reqs[r].status.point.job.AskPds? && !s.reqs[r].status.point.job.WaitPds?
    ensures Leads(s.reqs[r], Target(s.reqs[r]))
  {
  }

  lemma KeepsStore(c: Config, s: State, r: ReqId)
    requires Inv(c, s) && CanStore(c, s, r)
    ensures Inv(c, DoStore(c, s, r))
  {
    hide LogOk, CacheInv, FlightInv, ReqInv, HistoryInv;
    StoreLog(c, s, r);
    StoreCache(c, s, r);
    StoreFlight(c, s, r);
    StoreReqs(c, s, r);
    StoreHistory(c, s, r);
  }

  // ---------- Break ----------

  lemma BreakFacts(c: Config, s: State, r: ReqId, sharers: set<ReqId>)
    requires ReqInv(c, s) && CanBreak(c, s, r, sharers)
    ensures var q := s.reqs[r]; var since := BrokenSince(q);
            && Open(s.log, since, Target(q), r, q.did)
            && (q.status.stage.PolicyCheck? ==> c.hasPolicy)
            && FaultFits(Target(q), FaultOf(JobOf(s, r)))
  {
    JobFacts(c, s, r);
  }

  lemma RejectPds(c: Config, s: State, log: seq<Record>, w: ReqId, since: Index, fault: Fault)
    requires ReqInv(c, s) && w in s.reqs && s.reqs[w].status.Active? && InPds(s.reqs[w].status.point)
    requires s.log <= log && |log| == |s.log| + 1 && log[|s.log|].what.Errored? && log[|s.log|].what.since == since
    requires s.reqs[w].status.point.since != since
    ensures ReqOk(c, log, s.now, w, Reject(c, s.reqs[w], fault, |s.log|))
  {
    hide PassOk, DataOk, ReplyOk;
    var q := s.reqs[w];
    var p := Reject(c, q, fault, |s.log|);
    assert ReqOk(c, s.log, s.now, w, q);
    StageGrows(c, s.log, log, w, q, q.status.stage, q.status.point);
    OpenGrows(s.log, log, q.status.point.since, StageKey(q, q.status.stage), w, q.did);
    assert StageOk(c, log, w, q, q.status.stage, p.status.point);
    StageSame(c, log, w, q, p, q.status.stage, p.status.point);
  }

  lemma RejectOuter(c: Config, s: State, log: seq<Record>, w: ReqId, fault: Fault)
    requires ReqInv(c, s) && w in s.reqs && s.reqs[w].status.Active? && !InPds(s.reqs[w].status.point)
    requires s.reqs[w].status.stage.PolicyCheck? ==> c.hasPolicy
    requires s.log <= log && |log| == |s.log| + 1
    requires log[|s.log|].what.Errored? && log[|s.log|].what.key == Target(s.reqs[w])
    requires FaultFits(Target(s.reqs[w]), fault)
    requires Unended(s.log, log[|s.log|].what.since, |s.log|)
    ensures ReqOk(c, log, s.now, w, Reject(c, s.reqs[w], fault, |s.log|))
  {
    hide DataOk, PointOk;
    UnendedGrows(s.log, log, log[|s.log|].what.since, |s.log|);
    assert ReqOk(c, s.log, s.now, w, s.reqs[w]);
    assert PointOk(c, log, w, Reject(c, s.reqs[w], fault, |s.log|), DataFetch(FailedOpen(|s.log|)), Ask) by {
      AskIsOk(c, log, w, Reject(c, s.reqs[w], fault, |s.log|), DataFetch(FailedOpen(|s.log|)));
    }
  }

  lemma AskIsOk(c: Config, log: seq<Record>, r: ReqId, q: Req, stage: Stage)
    ensures PointOk(c, log, r, q, stage, Ask)
  {
  }

  /** A request whose call returns an error is fine afterwards. */
  lemma RejectOk(c: Config, s: State, log: seq<Record>, w: ReqId, since: Index, fault: Fault)
    requires ReqInv(c, s) && w in s.reqs && s.reqs[w].status.Active?
    requires s.reqs[w].status.stage.PolicyCheck? ==> c.hasPolicy
    requires s.log <= log && |log| == |s.log| + 1
    requires log[|s.log|].what == Errored(Target(s.reqs[w]), since) && Unended(s.log, since, |s.log|)
    requires FaultFits(Target(s.reqs[w]), fault)
    requires InPds(s.reqs[w].status.point) ==> s.reqs[w].status.point.since != since
    ensures ReqOk(c, log, s.now, w, Reject(c, s.reqs[w], fault, |s.log|))
  {
    hide ReqOk, Reject;
    if InPds(s.reqs[w].status.point) {
      RejectPds(c, s, log, w, since, fault);
    } else {
      RejectOuter(c, s, log, w, fault);
    }
  }

  lemma BreakReqs(c: Config, s: State, r: ReqId, sharers: set<ReqId>)
    requires ReqInv(c, s) && CanBreak(c, s, r, sharers)
    ensures ReqInv(c, DoBreak(c, s, r, sharers))
  {
    hide ReqOk, Reject;
    var t := DoBreak(c, s, r, sharers);
    var q := s.reqs[r];
    var k, since := Target(q), BrokenSince(q);
    BreakFacts(c, s, r, sharers);
    forall w | w in t.reqs
      ensures ReqOk(c, t.log, t.now, w, t.reqs[w])
    {
      if w == r || w in sharers {
        WaiterHasPolicy(c, s, w);
        if s.reqs[w].status.point.Run? {
          EndIsOwn(c, s, r, w, since, k, q.did);
        }
        RejectOk(c, s, t.log, w, since, FaultOf(JobOf(s, r)));
      } else {
        BystanderOk(c, s, t.log, r, w, since, k, q.did);
      }
    }
  }

  lemma RejectLeads(c: Config, q: Req, fault: Fault, ev: Index, k: Key)
    requires q.status.Active? && (Waiting(q) || q.status.point.Run?)
    requires q.status.point.Run? ==> !q.status.point.job.AskPds? && !q.status.point.job.KeepPds?
    ensures Leads(Reject(c, q, fault, ev), k) <==> Leads(q, k) && k != Target(q)
  {
  }

  lemma BreakFlight(c: Config, s: State, r: ReqId, sharers: set<ReqId>)
    requires FlightInv(s) && CanBreak(c, s, r, sharers)
    ensures FlightInv(DoBreak(c, s, r, sharers))
  {
    hide FlightInv, Leads, Reject;
    var t := DoBreak(c, s, r, sharers);
    var k := Target(s.reqs[r]);
    forall w, x | w in s.reqs
      ensures Leads(t.reqs[w], x) <==> Leads(s.reqs[w], x) && x != k
    {
      if w == r || w in sharers {
        RejectLeads(c, s.reqs[w], FaultOf(JobOf(s, r)), |s.log|, x);
      } else {
        OnlyLeader(s, r, w, k, x);
      }
    }
    LeaderLeads(s, r);
    FlightEnds(s, t, r, k);
  }

  lemma BreakLog(c: Config, s: State, r: ReqId, sharers: set<ReqId>)
    requires Inv(c, s) && CanBreak(c, s, r, sharers)
    ensures var t := DoBreak(c, s, r, sharers); LogOk(t.log, t.now) && CacheInv(c, t) && HistoryInv(t)
  {
    hide ReqOk, EntryOk, FlightInv;
    var t := DoBreak(c, s, r, sharers);
    BreakFacts(c, s, r, sharers);
    RecordGrowsBack(s.log, t.log, BrokenSince(s.reqs[r]));
    LogGrows(s.log, s.now, t.log, s.now);
    CacheGrows(c, s, t);
    HistoryGrows(s, t);
  }

  lemma KeepsBreak(c: Config, s: State, r: ReqId, sharers: set<ReqId>)
    requires Inv(c, s) && CanBreak(c, s, r, sharers)
    ensures Inv(c, DoBreak(c, s, r, sharers))
  {
    hide LogOk, CacheInv, FlightInv, ReqInv, HistoryInv;
    BreakLog(c, s, r, sharers);
    BreakFlight(c, s, r, sharers);
    BreakReqs(c, s, r, sharers);
  }

  // ---------- Cancel ----------

  /** The records a cancellation adds, one for each evaluation the request led. */
  lemma CancelRecords(c: Config, s: State, r: ReqId)
    requires ReqInv(c, s) && CanCancel(s, r)
    ensures var t := DoCancel(c, s, r);
            && s.log <= t.log
            && forall i: nat :: |s.log| <= i < |t.log| ==>
                 && t.log[i].time == s.now && t.log[i].what.Dropped?
                 && Open(s.log, t.log[i].what.since, t.log[i].what.key, r, s.reqs[r].did)
  {
    hide StageOk, ReplyOk;
    assert ReqOk(c, s.log, s.now, r, s.reqs[r]);
  }

  lemma CancelLog(c: Config, s: State, r: ReqId)
    requires Inv(c, s) && CanCancel(s, r)
    ensures var t := DoCancel(c, s, r); LogOk(t.log, t.now) && CacheInv(c, t) && HistoryInv(t)
  {
    hide ReqOk, EntryOk, FlightInv, DoCancel, Unended;
    var t := DoCancel(c, s, r);
    CancelRecords(c, s, r);
    CancelFrame(c, s, r);
    forall i: nat | |s.log| <= i < |t.log|
      ensures RecordOk(t.log, i)
    {
      RecordGrowsBack(s.log, t.log, t.log[i].what.since);
    }
    LogGrows(s.log, s.now, t.log, s.now);
    CacheGrows(c, s, t);
    HistoryGrows(s, t);
  }

  lemma CancelFrame(c: Config, s: State, r: ReqId)
    requires CanCancel(s, r)
    ensures var t := DoCancel(c, s, r); t.now == s.now && t.cache == s.cache && t.reqs.Keys == s.reqs.Keys
  {
  }

  lemma CancelReqs(c: Config, s: State, r: ReqId)
    requires ReqInv(c, s) && CanCancel(s, r)
    ensures ReqInv(c, DoCancel(c, s, r))
  {
    hide ReqOk;
    var t := DoCancel(c, s, r);
    CancelRecords(c, s, r);
    forall w | w in t.reqs
      ensures ReqOk(c, t.log, t.now, w, t.reqs[w])
    {
      if w == r {
        CancelledOk(c, s, t.log, r);
      } else {
        CancelBystander(c, s, r, w);
      }
    }
  }

  lemma CancelledOk(c: Config, s: State, log: seq<Record>, r: ReqId)
    requires ReqInv(c, s) && r in s.reqs && s.log <= log
    ensures ReqOk(c, log, s.now, r, s.reqs[r].(status := Done(Refused(Aborted))))
  {
    assert ReqOk(c, s.log, s.now, r, s.reqs[r]);
  }

  lemma CancelBystander(c: Config, s: State, r: ReqId, w: ReqId)
    requires ReqInv(c, s) && CanCancel(s, r) && w in s.reqs && w != r
    ensures var t := DoCancel(c, s, r); ReqOk(c, t.log, t.now, w, s.reqs[w])
  {
    hide ReqOk, Open, Ends;
    var t := DoCancel(c, s, r);
    CancelRecords(c, s, r);
    if s.reqs[w].status.Active? && s.reqs[w].status.point.Run? {
      forall i: nat | |s.log| <= i < |t.log|
        ensures !IsEndOf(t.log[i].what, s.reqs[w].status.point.since)
        ensures var job := s.reqs[w].status.point.job;
                job.QueryPds? || job.KeepPds? ==> !IsEndOf(t.log[i].what, job.pdsSince)
      {
        EndIsOwn(c, s, r, w, t.log[i].what.since, t.log[i].what.key, s.reqs[r].did);
      }
    }
    ReqGrows(c, s.log, s.now, t.log, s.now, w, s.reqs[w]);
  }

  lemma CancelFlight(c: Config, s: State, r: ReqId)
    requires FlightInv(s) && CanCancel(s, r)
    ensures FlightInv(DoCancel(c, s, r))
  {
    hide Leads, Ends, Stamp;
    DoneLeadsNothing(DoCancel(c, s, r).reqs[r]);
  }

  lemma DoneLeadsNothing(q: Req)
    requires q.status.Done?
    ensures forall x :: !Leads(q, x)
  {
  }

  lemma KeepsCancel(c: Config, s: State, r: ReqId)
    requires Inv(c, s) && CanCancel(s, r)
    ensures Inv(c, DoCancel(c, s, r))
  {
    hide LogOk, CacheInv, FlightInv, ReqInv, HistoryInv, DoCancel;
    CancelLog(c, s, r);
    CancelFlight(c, s, r);
    CancelReqs(c, s, r);
  }

  // ---------- the environment ----------

  lemma KeepsArrive(c: Config, s: State, r: ReqId, did: Did, cid: BlobCid)
    requires Inv(c, s) && r !in s.reqs
    ensures Inv(c, DoArrive(s, r, did, cid))
  {
    hide EntryOk, RecordOk, HistoryInv, ReqOk, FlightInv;
    var t := DoArrive(s, r, did, cid);
    ArrivedOk(c, s, r, did, cid);
    OthersGrow(c, s, s.log, s.now, {});
    CacheGrows(c, s, t);
    HistoryGrows(s, t);
    ArrivedFlight(s, r, did, cid);
  }

  lemma ArrivedFlight(s: State, r: ReqId, did: Did, cid: BlobCid)
    requires FlightInv(s) && r !in s.reqs
    ensures FlightInv(DoArrive(s, r, did, cid))
  {
    assert forall x :: !Leads(DoArrive(s, r, did, cid).reqs[r], x);
    hide Leads;
  }

  lemma ArrivedOk(c: Config, s: State, r: ReqId, did: Did, cid: BlobCid)
    ensures var t := DoArrive(s, r, did, cid); ReqOk(c, t.log, t.now, r, t.reqs[r])
  {
  }

  lemma KeepsTick(c: Config, s: State)
    requires Inv(c, s)
    ensures Inv(c, s.(now := s.now + 1))
  {
    hide EntryOk, ReqOk, RecordOk, HistoryInv, Leads;
    var t := s.(now := s.now + 1);
    CacheGrows(c, s, t);
    OthersGrow(c, s, s.log, t.now, {});
    HistoryGrows(s, t);
  }

  lemma KeepsDrop(c: Config, s: State, k: Key)
    requires Inv(c, s) && k in s.cache
    ensures Inv(c, DoDrop(s, k))
  {
    hide EntryOk, ReqOk, HistoryInv, Leads, RecordOk;
    var t := DoDrop(s, k);
    RemovedOk(t.log, |s.log|);
    LogGrows(s.log, s.now, t.log, s.now);
    CacheGrows(c, s, t);
    OthersGrow(c, s, t.log, t.now, {});
    assert TakenBetween(t.log, |s.log| - 1, |t.log|, k) by {
      assert Takes(t.log[|s.log|].what, k);
    }
    HistoryGrows(s, t);
  }

  lemma RemovedOk(log: seq<Record>, i: nat)
    requires i < |log| && log[i].what.Removed?
    ensures RecordOk(log, i)
  {
  }

  lemma KeepsStartPurge(c: Config, s: State, j: JobId, scope: Scope)
    requires Inv(c, s)
    ensures Inv(c, s.(purges := s.purges[j := Purge(scope, 0)]))
  {
    hide EntryOk, ReqOk, RecordOk, HistoryInv, Leads;
    var t := s.(purges := s.purges[j := Purge(scope, 0)]);
    ReqInvSame(c, s, t);
    CacheGrows(c, s, t);
    HistoryGrows(s, t);
  }

  lemma KeepsVisit(c: Config, s: State, j: JobId)
    requires Inv(c, s) && CanVisit(c, s, j)
    ensures Inv(c, DoVisit(c, s, j))
  {
    hide EntryOk, ReqOk, HistoryInv, Leads, InScope, Visits;
    var t := DoVisit(c, s, j);
    LogGrows(s.log, s.now, t.log, s.now);
    CacheGrows(c, s, t);
    OthersGrow(c, s, t.log, t.now, {});
    forall k | k in s.cache && k !in t.cache
      ensures TakenBetween(t.log, |s.log| - 1, |t.log|, k)
    {
      assert Takes(t.log[|s.log|].what, k);
    }
    HistoryGrows(s, t);
  }

  // ---------- every run ----------

  /** Every step keeps the invariant: in particular a cancellation at any await point, and a purge between any
      two steps of a request. */
  lemma StepKeeps(c: Config, s: State, step: Step)
    requires Inv(c, s) && Enabled(c, s, step)
    ensures Inv(c, Apply(c, s, step))
  {
    hide Inv, DoHit, DoJoin, DoLead, DoPolicyReply, DoPdsReply, DoOriginReply, DoBodyRead, DoVerify, DoStore, DoBreak,
      DoCancel, DoVisit, DoArrive, DoDrop, DoSkip;
    match step
    case Arrive(r, did, cid) => KeepsArrive(c, s, r, did, cid);
    case SkipPolicy(r) => KeepsSkipPolicy(c, s, r);
    case Hit(r) => KeepsHit(c, s, r);
    case Join(r) => KeepsJoin(c, s, r);
    case Lead(r) => KeepsLead(c, s, r);
    case PolicyReply(r, decision) => KeepsPolicyReply(c, s, r, decision);
    case PdsReply(r, url) => KeepsPdsReply(c, s, r, url);
    case OriginReply(r, answer) => KeepsOriginReply(c, s, r, answer);
    case BodyRead(r, declared, chunks) => KeepsBodyRead(c, s, r, declared, chunks);
    case Verify(r) => KeepsVerify(c, s, r);
    case Store(r) => KeepsStore(c, s, r);
    case Break(r, sharers) => KeepsBreak(c, s, r, sharers);
    case Cancel(r) => KeepsCancel(c, s, r);
    case Tick => KeepsTick(c, s);
    case Drop(k) => KeepsDrop(c, s, k);
    case StartPurge(j, scope) => KeepsStartPurge(c, s, j, scope);
    case VisitCache(j) => KeepsVisit(c, s, j);
  }

  /** The invariant holds in every state of every run. */
  lemma {:induction false} RunInv(c: Config, states: seq<State>, steps: seq<Step>, i: nat)
    requires IsRun(c, states, steps) && i < |states|
    ensures Inv(c, states[i])
  {
    hide Inv, Enabled, Apply;
    if i == 0 {
      InitInv(c, states[0]);
    } else {
      RunInv(c, states, steps, i - 1);
      StepKeeps(c, states[i - 1], steps[i - 1]);
    }
  }
}
