/** What stands behind the ownership of a served blob: a body of the actor's own origin that was accepted, or only
    the status of its answer. */
module Vouchers {
  import opened Wrappers
  import opened BlobCids
  import opened BlobRules
  import BodyStreams
  import opened Protocol
  import opened Invariants
  import opened Completion
  import opened Guarantees
  import opened Progress
  import opened OriginCosts

  /** The answer was given to an ownership evaluation, which looks at nothing but the status. */
  predicate ByStatus(log: seq<Record>, ev: Index, did: Did, cid: BlobCid) {
    var since := Since(log, ev);
    since < |log| && log[since].what.Began? && log[since].what.key == OwnerKey(cid, did)
  }

  predicate IsNote(log: seq<Record>, n: nat, since: Index, did: Did, cid: BlobCid) {
    n < |log| && log[n].what == Noted(OwnerKey(cid, did), since)
  }

  /** The answer was given to a data evaluation that went on to note the ownership. */
  ghost predicate ByNote(log: seq<Record>, ev: Index, did: Did, cid: BlobCid) {
    exists n: nat :: IsNote(log, n, Since(log, ev), did, cid)
  }

  ghost predicate Vouched(log: seq<Record>, ev: Index, did: Did, cid: BlobCid) {
    && ev < |log| && Since(log, ev) < |log|
    && (ByStatus(log, ev, did, cid) || ByNote(log, ev, did, cid))
  }

  ghost predicate EntriesVouched(s: State) {
    forall cid, did :: OwnerKey(cid, did) in s.cache ==> Vouched(s.log, s.cache[OwnerKey(cid, did)].ev, did, cid)
  }

  ghost predicate RepliesVouched(s: State) {
    forall r :: WasServed(s, r) ==> Vouched(s.log, ReplyOf(s, r).ownerEv, s.reqs[r].did, s.reqs[r].cid)
  }

  lemma VouchedGrows(log: seq<Record>, more: seq<Record>, ev: Index, did: Did, cid: BlobCid)
    requires Vouched(log, ev, did, cid) && log <= more
    ensures Vouched(more, ev, did, cid)
  {
    assert more[ev] == log[ev];
    if ByStatus(log, ev, did, cid) {
      assert more[Since(log, ev)] == log[Since(log, ev)];
    } else {
      var n: nat :| IsNote(log, n, Since(log, ev), did, cid);
      assert IsNote(more, n, Since(more, ev), did, cid);
    }
  }

  // ---------- every step keeps it ----------

  /** A stored ownership rests on an ownership evaluation. */
  lemma StoreVouches(c: Config, s: State, x: ReqId)
    requires ReqInv(c, s) && CanStore(c, s, x) && Target(s.reqs[x]).OwnerKey?
    ensures var k := Target(s.reqs[x]); Vouched(s.log, JobOf(s, x).ev, k.did, k.cid)
  {
    hide ReqOk, Backs;
    StoreFacts(c, s, x);
  }

  /** A noted ownership rests on the data evaluation that notes it. */
  lemma VerifyVouches(c: Config, s: State, x: ReqId)
    requires ReqInv(c, s) && CanVerify(c, s, x)
    requires Accept(c.rules, s.reqs[x].cid, JobOf(s, x).bytes).Success?
    ensures var q, t := s.reqs[x], DoVerify(c, s, x);
            t.cache == s.cache[OwnerKey(q.cid, q.did) := t.cache[OwnerKey(q.cid, q.did)]]
            && Vouched(t.log, t.cache[OwnerKey(q.cid, q.did)].ev, q.did, q.cid)
  {
    hide Accept, ReqInv, StageOk;
    var q, t := s.reqs[x], DoVerify(c, s, x);
    JobFacts(c, s, x);
    assert t.log[JobOf(s, x).ev] == s.log[JobOf(s, x).ev];
    assert IsNote(t.log, |s.log|, q.status.point.since, q.did, q.cid);
  }

  /** Steps other than these two leave the evidence of the entries they leave. */
  lemma OthersKeepEvidence(c: Config, s: State, step: Step, k: Key)
    requires !step.Store? && !step.Verify? && Enabled(c, s, step) && k in Apply(c, s, step).cache
    ensures k in s.cache && Apply(c, s, step).cache[k].ev == s.cache[k].ev
  {
    hide Deliver, Reject, Led, Downloaded, Panics, Ends, Stamp, Logged, InScope, Visits, WithJob, WithStatus;
  }

  lemma StepEntries(c: Config, s: State, step: Step)
    requires Inv(c, s) && EntriesVouched(s) && Enabled(c, s, step)
    ensures EntriesVouched(Apply(c, s, step))
  {
    hide LogOk, CacheInv, FlightInv, HistoryInv, ReqInv, Vouched, DoHit, DoJoin, DoLead, DoPolicyReply, DoPdsReply,
      DoOriginReply, DoBodyRead, DoBreak, DoCancel, DoVisit, DoArrive, DoDrop, DoSkip, DoStore, DoVerify, Caused;
    var t := Apply(c, s, step);
    StepLog(c, s, step);
    forall cid, did | OwnerKey(cid, did) in t.cache
      ensures Vouched(t.log, t.cache[OwnerKey(cid, did)].ev, did, cid)
    {
      EntryVouched(c, s, step, cid, did);
    }
  }

  lemma EntryVouched(c: Config, s: State, step: Step, cid: BlobCid, did: Did)
    requires Inv(c, s) && EntriesVouched(s) && Enabled(c, s, step) && s.log <= Apply(c, s, step).log
    requires OwnerKey(cid, did) in Apply(c, s, step).cache
    ensures var t := Apply(c, s, step); Vouched(t.log, t.cache[OwnerKey(cid, did)].ev, did, cid)
  {
    hide LogOk, CacheInv, FlightInv, HistoryInv, ReqInv, Vouched, DoHit, DoJoin, DoLead, DoPolicyReply, DoPdsReply,
      DoOriginReply, DoBodyRead, DoBreak, DoCancel, DoVisit, DoArrive, DoDrop, DoSkip, DoStore, DoVerify;
    var t := Apply(c, s, step);
    var k := OwnerKey(cid, did);
    if step.Store? {
      StoreWrites(c, s, step.r);
      if Target(s.reqs[step.r]) == k {
        StoreVouches(c, s, step.r);
        VouchedGrows(s.log, t.log, JobOf(s, step.r).ev, did, cid);
      } else {
        VouchedGrows(s.log, t.log, s.cache[k].ev, did, cid);
      }
    } else if step.Verify? && Accept(c.rules, s.reqs[step.r].cid, JobOf(s, step.r).bytes).Success? {
      VerifyVouches(c, s, step.r);
      if k != OwnerKey(s.reqs[step.r].cid, s.reqs[step.r].did) {
        VouchedGrows(s.log, t.log, s.cache[k].ev, did, cid);
      }
    } else {
      if step.Verify? {
        RejectedKeeps(c, s, step.r);
      } else {
        OthersKeepEvidence(c, s, step, k);
      }
      VouchedGrows(s.log, t.log, s.cache[k].ev, did, cid);
    }
  }

  lemma StoreWrites(c: Config, s: State, x: ReqId)
    requires CanStore(c, s, x)
    ensures var t := DoStore(c, s, x); var k := Target(s.reqs[x]);
            t.cache == s.cache[k := t.cache[k]] && t.cache[k].ev == JobOf(s, x).ev
  {
    hide Target, Deliver, StoredValue, StoredSince, Receives;
  }

  lemma RejectedKeeps(c: Config, s: State, x: ReqId)
    requires CanVerify(c, s, x) && Accept(c.rules, s.reqs[x].cid, JobOf(s, x).bytes).Failure?
    ensures DoVerify(c, s, x).cache == s.cache
  {
    hide Accept;
  }

  lemma DeliverServes(q: Req, v: Value, ev: Index, now: Time)
    requires q.status.Active? && Deliver(q, v, ev, now).status.Done? && Deliver(q, v, ev, now).status.reply.Served?
    ensures Target(q) == OwnerKey(q.cid, q.did) && Deliver(q, v, ev, now).status.reply.ownerEv == ev
  {
  }

  lemma HitReply(c: Config, s: State, r: ReqId)
    requires CanHit(c, s, r) && WasServed(DoHit(c, s, r), r)
    ensures var q := s.reqs[r]; var k := OwnerKey(q.cid, q.did);
            k in s.cache && ReplyOf(DoHit(c, s, r), r).ownerEv == s.cache[k].ev
  {
    hide Deliver;
    var e := s.cache[Target(s.reqs[r])];
    DeliverServes(s.reqs[r], e.value, e.ev, s.now);
  }

  lemma StoreReply(c: Config, s: State, x: ReqId, r: ReqId)
    requires CanStore(c, s, x) && r in s.reqs && s.reqs[r].status.Active? && WasServed(DoStore(c, s, x), r)
    ensures var q := s.reqs[r];
            Target(s.reqs[x]) == OwnerKey(q.cid, q.did) && ReplyOf(DoStore(c, s, x), r).ownerEv == JobOf(s, x).ev
  {
    hide Deliver;
    var job := JobOf(s, x);
    assert Receives(c, s, x, Target(s.reqs[x]), r);
    DeliverServes(s.reqs[r], StoredValue(job), job.ev, s.now);
  }

  lemma OthersDoNotServe(c: Config, s: State, step: Step, r: ReqId)
    requires !step.Hit? && !step.Store?
    requires Enabled(c, s, step) && r in s.reqs && s.reqs[r].status.Active?
    ensures !WasServed(Apply(c, s, step), r)
  {
    hide Hits, Accept, Downloaded, Panics, Logged, Without, InScope, Visits, Led, Ends, Stamp;
    if step.Lead? {
      LedNotDone(s.reqs[step.r], |Apply(c, s, step).log| - 1);
    }
  }

  lemma LedNotDone(q: Req, since: Index)
    requires Asks(q) || Waiting(q)
    ensures Led(q, since).status.Active?
  {
  }

  lemma ReplyVouched(c: Config, s: State, step: Step, r: ReqId)
    requires Inv(c, s) && EntriesVouched(s) && RepliesVouched(s)
    requires Enabled(c, s, step) && s.log <= Apply(c, s, step).log
    requires WasServed(Apply(c, s, step), r)
    ensures var t := Apply(c, s, step); Vouched(t.log, ReplyOf(t, r).ownerEv, t.reqs[r].did, t.reqs[r].cid)
  {
    hide LogOk, CacheInv, FlightInv, HistoryInv, ReqInv, Vouched, DoHit, DoJoin, DoLead, DoPolicyReply, DoPdsReply,
      DoOriginReply, DoBodyRead, DoBreak, DoCancel, DoVisit, DoArrive, DoDrop, DoSkip, DoStore, DoVerify;
    var t := Apply(c, s, step);
    if r !in s.reqs {
      NewIsActive(c, s, step, r);
    }
    KeepsPair(c, s, step, r);
    if s.reqs[r].status.Done? {
      ReplyStands(c, s, step, r);
      VouchedGrows(s.log, t.log, ReplyOf(s, r).ownerEv, s.reqs[r].did, s.reqs[r].cid);
    } else if step.Store? {
      StoreReply(c, s, step.r, r);
      StoreVouches(c, s, step.r);
      VouchedGrows(s.log, t.log, JobOf(s, step.r).ev, s.reqs[r].did, s.reqs[r].cid);
    } else if step == Hit(r) {
      HitReply(c, s, r);
      VouchedGrows(s.log, t.log, ReplyOf(t, r).ownerEv, s.reqs[r].did, s.reqs[r].cid);
    } else if step.Hit? {
      OthersStay(c, s, step, r);
    } else {
      OthersDoNotServe(c, s, step, r);
    }
  }

  lemma NewIsActive(c: Config, s: State, step: Step, r: ReqId)
    requires Enabled(c, s, step) && r !in s.reqs
    ensures !WasServed(Apply(c, s, step), r)
  {
    hide Enabled, Apply;
    if r in Apply(c, s, step).reqs {
      NewRequests(c, s, step, r);
      StepKinds(c, s, step);
    }
  }

  lemma KeepsPair(c: Config, s: State, step: Step, r: ReqId)
    requires Enabled(c, s, step) && r in s.reqs
    ensures SamePair(s, Apply(c, s, step), r)
  {
    hide Enabled, Apply;
    RequestsStay(c, s, step, r);
  }

  lemma {:induction false} RunVouched(c: Config, states: seq<State>, steps: seq<Step>, i: nat)
    requires IsRun(c, states, steps) && i < |states|
    ensures EntriesVouched(states[i]) && RepliesVouched(states[i])
  {
    hide Enabled, Apply, Inv, Vouched, Caused;
    if i > 0 {
      var s, step := states[i - 1], steps[i - 1];
      RunVouched(c, states, steps, i - 1);
      RunInv(c, states, steps, i - 1);
      StepLog(c, s, step);
      StepEntries(c, s, step);
      forall r | WasServed(states[i], r)
        ensures Vouched(states[i].log, ReplyOf(states[i], r).ownerEv, states[i].reqs[r].did, states[i].reqs[r].cid)
      {
        ReplyVouched(c, s, step, r);
      }
    }
  }

  // ---------- the body behind a note ----------

  /** The request runs the evaluation begun at `since` and holds a complete body. */
  predicate Holds(q: Req, since: Index, bytes: BodyStreams.Buffer) {
    && q.status.Active? && q.status.point.Run? && q.status.point.since == since
    && q.status.point.job.Check? && q.status.point.job.bytes == bytes
  }

  /** The step reads the body of the evaluation that `x` has been running since `since`. */
  predicate Reads(c: Config, s: State, step: Step, x: ReqId, since: Index) {
    step.BodyRead? && step.r == x && RunsSince(s, x, since) && JobOf(s, x).Body?
  }

  lemma DeliverHolds(q: Req, v: Value, ev: Index, now: Time, since: Index, bytes: BodyStreams.Buffer)
    requires q.status.Active? && Holds(Deliver(q, v, ev, now), since, bytes)
    ensures Holds(q, since, bytes)
  {
  }

  lemma RejectHolds(c: Config, q: Req, f: Fault, ev: Index, since: Index, bytes: BodyStreams.Buffer)
    requires q.status.Active?
    ensures !Holds(Reject(c, q, f, ev), since, bytes)
  {
  }

  lemma StoreHolds(c: Config, s: State, y: ReqId, x: ReqId, since: Index, bytes: BodyStreams.Buffer)
    requires CanStore(c, s, y) && x in s.reqs && Holds(DoStore(c, s, y).reqs[x], since, bytes)
    ensures Holds(s.reqs[x], since, bytes)
  {
    hide Deliver, Holds;
    var job := JobOf(s, y);
    if Receives(c, s, y, Target(s.reqs[y]), x) {
      DeliverHolds(s.reqs[x], StoredValue(job), job.ev, s.now, since, bytes);
    }
  }

  lemma BreakHolds(c: Config, s: State, y: ReqId, sharers: set<ReqId>, x: ReqId,
                   since: Index, bytes: BodyStreams.Buffer)
    requires CanBreak(c, s, y, sharers) && x in s.reqs && Holds(DoBreak(c, s, y, sharers).reqs[x], since, bytes)
    ensures Holds(s.reqs[x], since, bytes)
  {
    hide Reject, Holds;
    if x == y || x in sharers {
      RejectHolds(c, s.reqs[x], FaultOf(JobOf(s, y)), |s.log|, since, bytes);
    }
  }

  lemma HitHolds(c: Config, s: State, x: ReqId, since: Index, bytes: BodyStreams.Buffer)
    requires CanHit(c, s, x) && Holds(DoHit(c, s, x).reqs[x], since, bytes)
    ensures Holds(s.reqs[x], since, bytes)
  {
    hide Deliver, Holds;
    var e := s.cache[Target(s.reqs[x])];
    DeliverHolds(s.reqs[x], e.value, e.ev, s.now, since, bytes);
  }

  lemma ReadHolds(c: Config, s: State, x: ReqId, declared: Option<BodyStreams.U64>, chunks: seq<BodyStreams.Chunk>,
                  since: Index, bytes: BodyStreams.Buffer)
    requires CanBodyRead(c, s, x, declared, chunks)
    requires Holds(DoBodyRead(c, s, x, declared, chunks).reqs[x], since, bytes)
    ensures Reads(c, s, BodyRead(x, declared, chunks), x, since)
    ensures Downloaded(c.rules, declared, chunks) == Success(bytes)
  {
    hide Downloaded, Panics;
  }

  lemma OwnStepHolds(c: Config, s: State, step: Step, since: Index, bytes: BodyStreams.Buffer)
    requires step.PolicyReply? || step.PdsReply? || step.OriginReply? || step.Verify? || step.Lead? || step.Join?
             || step.SkipPolicy? || step.Cancel?
    requires Enabled(c, s, step) && step.r in s.reqs && step.r in Apply(c, s, step).reqs
    ensures !Holds(Apply(c, s, step).reqs[step.r], since, bytes)
  {
    hide Hits, Logged, Without, Ends, Stamp, Accept;
  }

  lemma StepHolds(c: Config, s: State, step: Step, x: ReqId, since: Index, bytes: BodyStreams.Buffer)
    requires Enabled(c, s, step) && x in s.reqs && !Holds(s.reqs[x], since, bytes)
    requires x in Apply(c, s, step).reqs && Holds(Apply(c, s, step).reqs[x], since, bytes)
    ensures Reads(c, s, step, x, since) && Downloaded(c.rules, step.declared, step.chunks) == Success(bytes)
  {
    hide Reads, Holds, Downloaded, DoHit, DoStore, DoBreak, DoJoin, DoLead, DoPolicyReply, DoPdsReply, DoOriginReply,
      DoBodyRead, DoVerify, DoVisit, DoArrive, DoDrop, DoSkip, DoCancel;
    if !IsWork(step) || step.VisitCache? {
      OutsideKeepsReqs(c, s, step, x);
    } else if step.Store? {
      StoreHolds(c, s, step.r, x, since, bytes);
    } else if step.Break? {
      BreakHolds(c, s, step.r, step.sharers, x, since, bytes);
    } else if Actor(step) != x {
      OthersStay(c, s, step, x);
    } else if step.Hit? {
      HitHolds(c, s, x, since, bytes);
    } else if step.BodyRead? {
      ReadHolds(c, s, x, step.declared, step.chunks, since, bytes);
    } else {
      OwnStepHolds(c, s, step, since, bytes);
    }
  }

  /** A complete body was read by a step of the run, in the same evaluation. */
  lemma {:induction false} BodyWasRead(c: Config, states: seq<State>, steps: seq<Step>, i: nat, x: ReqId,
                                       since: Index, bytes: BodyStreams.Buffer)
    returns (n: nat)
    requires IsRun(c, states, steps) && i < |states| && x in states[i].reqs && Holds(states[i].reqs[x], since, bytes)
    ensures n < i <= |steps| && Reads(c, states[n], steps[n], x, since)
    ensures Downloaded(c.rules, steps[n].declared, steps[n].chunks) == Success(bytes)
    ensures x in states[n].reqs
    ensures states[n].reqs[x].did == states[i].reqs[x].did && states[n].reqs[x].cid == states[i].reqs[x].cid
  {
    hide Enabled, Apply, Reads, Downloaded;
    var s, step := states[i - 1], steps[i - 1];
    if x !in s.reqs {
      NewRequests(c, s, step, x);
      StepKinds(c, s, step);
    }
    RequestsStay(c, s, step, x);
    if Holds(s.reqs[x], since, bytes) {
      n := BodyWasRead(c, states, steps, i - 1, x, since, bytes);
    } else {
      StepHolds(c, s, step, x, since, bytes);
      n := i - 1;
    }
  }

  /** The content a note was made for: a genuine blob, as the actor's own origin had sent it in that evaluation. */
  lemma NoteHasBody(c: Config, states: seq<State>, steps: seq<Step>, i: nat, since: Index,
                    did: Did, cid: BlobCid, m: nat)
    returns (n: nat, b: Blob)
    requires IsRun(c, states, steps) && i < |states| && IsNote(states[i].log, m, since, did, cid)
    ensures n < i <= |steps| && steps[n].BodyRead? && Reads(c, states[n], steps[n], steps[n].r, since)
    ensures states[n].reqs[steps[n].r].did == did && states[n].reqs[steps[n].r].cid == cid
    ensures Downloaded(c.rules, steps[n].declared, steps[n].chunks) == Success(b.bytes) && Genuine(c.rules, cid, b)
    ensures Accept(c.rules, cid, b.bytes) == Success(b)
  {
    hide Enabled, Apply, Inv, Downloaded, Accept, Genuine, Caused;
    RunInv(c, states, steps, i);
    NoteIsBacked(c, states[i], m, since, did, cid);
    var leader := states[i].log[since].what.leader;
    var v := RecordHasCause(c, states, steps, i, m);
    RunInv(c, states, steps, v);
    LogIsKept(c, states, steps, v + 1, i);
    assert states[v + 1].log[m] == states[i].log[m] && states[v + 1].log[since] == states[i].log[since];
    NoterIsLeader(c, states[v], steps[v], m, leader, did, cid);
    StepKinds(c, states[v], steps[v]);
    NoterHolds(c, states[v], states[v + 1].log, m, since, leader, did, cid);
    var bytes := JobOf(states[v], leader).bytes;
    b := Accept(c.rules, cid, bytes).value;
    n := BodyWasRead(c, states, steps, v, leader, since, bytes);
    DownloadedFits(c.rules, steps[n].declared, steps[n].chunks);
    AcceptIff(c.rules, cid, bytes, b);
  }

  lemma NoteIsBacked(c: Config, s: State, m: nat, since: Index, did: Did, cid: BlobCid)
    requires Inv(c, s) && IsNote(s.log, m, since, did, cid)
    ensures since < m && s.log[since].what.Began? && NotedBy(s.log, m, s.log[since].what.leader, did, cid)
  {
    hide CacheInv, FlightInv, HistoryInv, ReqInv;
    assert RecordOk(s.log, m);
  }

  /** What the leader holds when it notes. */
  lemma NoterHolds(c: Config, s: State, log: seq<Record>, m: nat, since: Index, x: ReqId, did: Did, cid: BlobCid)
    requires Inv(c, s) && CanVerify(c, s, x) && Accept(c.rules, s.reqs[x].cid, JobOf(s, x).bytes).Success?
    requires log == DoVerify(c, s, x).log && |s.log| <= m && IsNote(log, m, since, did, cid)
    ensures Holds(s.reqs[x], since, JobOf(s, x).bytes) && s.reqs[x].did == did && s.reqs[x].cid == cid
  {
    hide Inv, Accept;
  }
}
