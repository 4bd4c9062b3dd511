/** What the protocol guarantees of every run. */
module Guarantees {
  import opened BlobRules
  import opened Protocol
  import opened Invariants
  import opened Completion

  // ---------- the log is the history ----------

  /** The request is at a job of the evaluation begun at `since`. */
  predicate RunsSince(s: State, r: ReqId, since: Index) {
    r in s.reqs && s.reqs[r].status.Active? && s.reqs[r].status.point.Run? && s.reqs[r].status.point.since == since
  }

  /** The request's innermost cache call is of `k`. */
  predicate Calls(s: State, r: ReqId, k: Key) {
    r in s.reqs && s.reqs[r].status.Active? && Target(s.reqs[r]) == k
  }

  /** The record is what the step does in this state: an answer is the one given to what the request asked, an
      error that of a failing evaluation, a drop that of a cancelled leader. */
  predicate Caused(c: Config, step: Step, s: State, what: Event) {
    match what
    case Began(k, leader, did) => step == Lead(leader) && Calls(s, leader, k) && s.reqs[leader].did == did
    case PolicySaid(did, cid, d, since) =>
      && step.PolicyReply? && step.decision == d && RunsSince(s, step.r, since) && JobOf(s, step.r).Query?
      && s.reqs[step.r].did == did && s.reqs[step.r].cid == cid
    case PdsSaid(did, url, since) =>
      && step.PdsReply? && step.url == url && AtJob(c, s, step.r) && JobOf(s, step.r) == QueryPds(since)
      && s.reqs[step.r].did == did
    case OriginSaid(did, cid, url, pds, since) =>
      && step.OriginReply? && step.answer == Ok && RunsSince(s, step.r, since)
      && JobOf(s, step.r) == Fetch(url, pds) && s.reqs[step.r].did == did && s.reqs[step.r].cid == cid
    case Noted(k, since) =>
      && step.Verify? && RunsSince(s, step.r, since) && JobOf(s, step.r).Check?
      && k == OwnerKey(s.reqs[step.r].cid, s.reqs[step.r].did)
    case Stored(k, _) => step.Store? && Calls(s, step.r, k)
    case Errored(k, _) =>
      && step.Break? && Calls(s, step.r, k) && AtJob(c, s, step.r)
      && (JobOf(s, step.r).Query? || JobOf(s, step.r).QueryPds? || JobOf(s, step.r).Broken?)
    case Dropped(k, _) => step.Cancel? && step.r in s.reqs && Leads(s.reqs[step.r], k)
    case Removed(k) => step == Drop(k)
    case Expired(k) => step.Lead? && Calls(s, step.r, k) && k in s.cache && !Hits(c, s, k)
    case Purged(name, scope, j) =>
      && step == VisitCache(j) && CanVisit(c, s, j) && s.purges[j].scope == scope
      && name == Visits(c, scope)[s.purges[j].visited]
  }

  /** The log has only grown, by records the step causes. */
  predicate Explained(c: Config, s: State, step: Step, t: State) {
    s.log <= t.log && forall m: nat :: |s.log| <= m < |t.log| ==> Caused(c, step, s, t.log[m].what)
  }

  lemma SilentLog(c: Config, s: State, step: Step)
    requires step.Arrive? || step.SkipPolicy? || step.Hit? || step.Join? || step.BodyRead? || step.Tick?
             || step.StartPurge?
    requires Enabled(c, s, step)
    ensures Apply(c, s, step).log == s.log
  {
    hide Hits, Looks, Deliver, Panics, Downloaded;
  }

  lemma LeadLogged(c: Config, s: State, r: ReqId)
    requires CanLead(c, s, r)
    ensures Explained(c, s, Lead(r), DoLead(c, s, r))
  {
    hide Hits, Led, Without;
  }

  lemma ReplyLogged(c: Config, s: State, step: Step)
    requires step.PolicyReply? || step.PdsReply? || step.OriginReply?
    requires Enabled(c, s, step)
    ensures Explained(c, s, step, Apply(c, s, step))
  {
    hide WithJob;
  }

  lemma VerifyLogged(c: Config, s: State, r: ReqId)
    requires CanVerify(c, s, r)
    ensures Explained(c, s, Verify(r), DoVerify(c, s, r))
  {
    hide Accept, WithJob;
  }

  lemma StoreLogged(c: Config, s: State, r: ReqId)
    requires CanStore(c, s, r)
    ensures Explained(c, s, Store(r), DoStore(c, s, r))
  {
    hide Receives, Deliver, Target, StoredValue, StoredSince;
  }

  lemma BreakLogged(c: Config, s: State, r: ReqId, sharers: set<ReqId>)
    requires CanBreak(c, s, r, sharers)
    ensures Explained(c, s, Break(r, sharers), DoBreak(c, s, r, sharers))
  {
    hide Reject, Target, FaultOf, BrokenSince;
  }

  lemma CancelLogged(c: Config, s: State, r: ReqId)
    requires CanCancel(s, r)
    ensures Explained(c, s, Cancel(r), DoCancel(c, s, r))
  {
    hide WithStatus;
  }

  lemma OutsideLogged(c: Config, s: State, step: Step)
    requires step.Drop? || step.VisitCache?
    requires Enabled(c, s, step)
    ensures Explained(c, s, step, Apply(c, s, step))
  {
    hide Visits, InScope, Without;
  }

  /** A step only appends to the log, and every record it appends is its own. */
  lemma StepLog(c: Config, s: State, step: Step)
    requires Enabled(c, s, step)
    ensures Explained(c, s, step, Apply(c, s, step))
  {
    hide Caused, DoHit, DoJoin, DoLead, DoPolicyReply, DoPdsReply, DoOriginReply, DoBodyRead, DoVerify, DoStore,
      DoBreak, DoCancel, DoVisit, DoArrive, DoDrop, DoSkip;
    match step
    case Lead(r) => LeadLogged(c, s, r);
    case PolicyReply(_, _) => ReplyLogged(c, s, step);
    case PdsReply(_, _) => ReplyLogged(c, s, step);
    case OriginReply(_, _) => ReplyLogged(c, s, step);
    case Verify(r) => VerifyLogged(c, s, r);
    case Store(r) => StoreLogged(c, s, r);
    case Break(r, sharers) => BreakLogged(c, s, r, sharers);
    case Cancel(r) => CancelLogged(c, s, r);
    case Drop(_) => OutsideLogged(c, s, step);
    case VisitCache(_) => OutsideLogged(c, s, step);
    case _ => SilentLog(c, s, step);
  }

  lemma {:induction false} LogIsKept(c: Config, states: seq<State>, steps: seq<Step>, i: nat, j: nat)
    requires IsRun(c, states, steps) && i <= j < |states|
    ensures states[i].log <= states[j].log
  {
    hide Enabled, Apply, Caused;
    if i < j {
      LogIsKept(c, states, steps, i, j - 1);
      StepLog(c, states[j - 1], steps[j - 1]);
    }
  }

  /** The step that wrote a record, while the log was that short. */
  lemma {:induction false} RecordHasCause(c: Config, states: seq<State>, steps: seq<Step>, i: nat, m: nat)
    returns (n: nat)
    requires IsRun(c, states, steps) && i < |states| && m < |states[i].log|
    ensures n < i <= |steps| && |states[n].log| <= m < |states[n + 1].log|
    ensures Caused(c, steps[n], states[n], states[i].log[m].what)
  {
    hide Enabled, Apply, Caused;
    StepLog(c, states[i - 1], steps[i - 1]);
    if m < |states[i - 1].log| {
      n := RecordHasCause(c, states, steps, i - 1, m);
    } else {
      n := i - 1;
    }
  }

  /** A policy evaluation ends in an error only by a query that failed. */
  lemma PolicyErrorIsQuery(c: Config, s: State, step: Step, k: Key, since: Index)
    requires ReqInv(c, s) && Caused(c, step, s, Errored(k, since)) && k.PolicyKey?
    ensures JobOf(s, step.r).Query?
  {
    hide StageOk, ReplyOk, Unended;
    assert ReqOk(c, s.log, s.now, step.r, s.reqs[step.r]);
  }

  /** The history is not made up: every record was written by a step of the run that did just that. An answer is
      the one given to what the request had asked, an origin's at the very endpoint on record; a logged policy
      failure is a query for that pair that failed, not a cancellation. */
  lemma AnswersWereGiven(c: Config, states: seq<State>, steps: seq<Step>, i: nat, m: nat) returns (n: nat)
    requires IsRun(c, states, steps) && i < |states| && m < |states[i].log|
    ensures n < i <= |steps| && |states[n].log| <= m < |states[n + 1].log|
    ensures Caused(c, steps[n], states[n], states[i].log[m].what)
    ensures var what := states[i].log[m].what;
            what.Errored? && what.key.PolicyKey? ==>
              && steps[n].Break? && RunsSince(states[n], steps[n].r, states[n].reqs[steps[n].r].status.point.since)
              && JobOf(states[n], steps[n].r).Query?
              && states[n].reqs[steps[n].r].did == what.key.did && states[n].reqs[steps[n].r].cid == what.key.cid
  {
    hide IsRun, LogOk, CacheInv, FlightInv, HistoryInv, ReqInv;
    n := RecordHasCause(c, states, steps, i, m);
    RunInv(c, states, steps, n);
    var what := states[i].log[m].what;
    if what.Errored? && what.key.PolicyKey? {
      PolicyErrorIsQuery(c, states[n], steps[n], what.key, what.since);
    }
  }

  // ---------- serving ----------

  /** Request `r` has been answered with a blob. */
  predicate WasServed(s: State, r: ReqId) {
    r in s.reqs && s.reqs[r].status.Done? && s.reqs[r].status.reply.Served?
  }

  /** The policy service answered Allowed for exactly this pair; or there is no policy client; or a query for
      exactly this pair failed during the request, with fail-open set. */
  predicate PolicyJustified(c: Config, log: seq<Record>, q: Req, pass: Pass) {
    match pass
    case NoClient => !c.hasPolicy
    case AllowedAt(ev) => PolicyAt(log, ev, q.did, q.cid, Allowed)
    case FailedOpen(ev) =>
      c.failOpen && q.born <= ev < |log| && log[ev].what.Errored? && log[ev].what.key == PolicyKey(q.did, q.cid)
  }

  /** The actor's own origin, at an endpoint resolved for that actor, answered success for the blob. */
  predicate OwnershipJustified(log: seq<Record>, q: Req, ownerEv: Index) {
    && OriginAt(log, ownerEv, q.did, q.cid)
    && PdsAt(log, log[ownerEv].what.pds, q.did, log[ownerEv].what.url)
  }

  /** The reply to a served request. */
  function ReplyOf(s: State, r: ReqId): Reply
    requires WasServed(s, r)
  {
    s.reqs[r].status.reply
  }

  lemma ServedFacts(c: Config, s: State, r: ReqId)
    requires Inv(c, s) && WasServed(s, r)
    ensures ReqOk(c, s.log, s.now, r, s.reqs[r])
    ensures ReplyOk(c, s.log, s.now, s.reqs[r], ReplyOf(s, r))
  {
    hide LogOk, CacheInv, FlightInv, HistoryInv;
  }

  lemma OriginRecord(log: seq<Record>, now: Time, i: Index)
    requires LogOk(log, now) && i < |log| && log[i].what.OriginSaid?
    ensures var o := log[i].what;
            && o.pds < i && PdsAt(log, o.pds, o.did, o.url)
            && o.since < i && log[o.since].what.Began? && log[o.since].what.did == o.did
            && (log[o.since].what.key == DataKey(o.cid) || log[o.since].what.key == OwnerKey(o.cid, o.did))
            && Outlives(log, Since(log, o.pds), o.since, PdsKey(o.did))
  {
    assert RecordOk(log, i);
  }

  /** Serving safety. However requests, evaluations, cancellations, evictions and purges interleave, a blob is
      served for (did, cid) only with the policy's consent for that pair, only if its bytes hash to cid, fit the
      cap and sniff to an allowed type, and only if did's own origin answered for cid, whichever
      origin the bytes came from. */
  lemma ServingSafety(c: Config, states: seq<State>, steps: seq<Step>, i: nat, r: ReqId)
    requires IsRun(c, states, steps) && i < |states| && WasServed(states[i], r)
    ensures var s := states[i]; var q := s.reqs[r]; var a := ReplyOf(s, r);
            && PolicyJustified(c, s.log, q, a.pass)
            && Genuine(c.rules, q.cid, a.blob)
            && OwnershipJustified(s.log, q, a.ownerEv)
            && a.dataEv < |s.log| && s.log[a.dataEv].what.OriginSaid? && s.log[a.dataEv].what.cid == q.cid
  {
    hide Inv, IsRun, Outlives, Genuine;
    RunInv(c, states, steps, i);
    ServedFacts(c, states[i], r);
    InvLog(c, states[i]);
    OriginRecord(states[i].log, states[i].now, ReplyOf(states[i], r).ownerEv);
  }

  lemma InvLog(c: Config, s: State)
    requires Inv(c, s)
    ensures LogOk(s.log, s.now)
  {
    hide LogOk, CacheInv, FlightInv, ReqInv, HistoryInv;
  }

  /** Any two blobs served for one cid in a run are the same bytes with the same type, whichever origins they
      came from and whatever was evicted or purged in between, unless the digest has a collision. */
  lemma OneContentPerCid(c: Config, states: seq<State>, steps: seq<Step>, i: nat, r: ReqId, j: nat, w: ReqId)
    requires IsRun(c, states, steps) && i < |states| && j < |states|
    requires WasServed(states[i], r) && WasServed(states[j], w) && states[i].reqs[r].cid == states[j].reqs[w].cid
    ensures var a, b := ReplyOf(states[i], r).blob, ReplyOf(states[j], w).blob;
            a == b || Collide(c.rules, a.bytes, b.bytes)
  {
    hide IsRun, Genuine, PolicyJustified, OwnershipJustified;
    ServingSafety(c, states, steps, i, r);
    ServingSafety(c, states, steps, j, w);
    GenuineIsUnique(c.rules, states[i].reqs[r].cid, ReplyOf(states[i], r).blob, ReplyOf(states[j], w).blob);
  }

  /** No request is ever refused for an unsupported multihash: the validation of the CID has made that error dead,
      for the leader of a download and for everyone who shares its error. */
  lemma NeverUnsupported(c: Config, states: seq<State>, steps: seq<Step>, i: nat, r: ReqId)
    requires IsRun(c, states, steps) && i < |states| && r in states[i].reqs
    ensures states[i].reqs[r].status != Done(Refused(DownloadFailed(DownloadError.CidUnsupportedMultihash)))
  {
    hide IsRun, LogOk, CacheInv, FlightInv, HistoryInv, StageOk, PointOk, PassOk, DataOk, OwnerOk;
    RunInv(c, states, steps, i);
    assert ReqOk(c, states[i].log, states[i].now, r, states[i].reqs[r]);
  }

  // ---------- the caches ----------

  /** Only answers are cached. In every reachable state each entry is backed by a logged answer for exactly its
      key: no failure, and no fail-open pass, ever becomes an entry; cached data is keyed by the CID of its
      bytes, within the cap and of its sniffed, allowed type. */
  lemma OnlyAnswersAreCached(c: Config, states: seq<State>, steps: seq<Step>, i: nat, k: Key)
    requires IsRun(c, states, steps) && i < |states| && k in states[i].cache
    ensures var s := states[i]; var e := s.cache[k];
            && e.ev < |s.log|
            && match k
               case PolicyKey(did, cid) => e.value.Ruling? && PolicyAt(s.log, e.ev, did, cid, e.value.decision)
               case PdsKey(did) => e.value.Endpoint? && PdsAt(s.log, e.ev, did, e.value.url)
               case DataKey(cid) =>
                 e.value.Content? && Genuine(c.rules, cid, e.value.blob)
                 && s.log[e.ev].what.OriginSaid? && s.log[e.ev].what.cid == cid
               case OwnerKey(cid, did) => e.value == Owned && OriginAt(s.log, e.ev, did, cid)
  {
    hide IsRun, Genuine, Unended, FlightInv, ReqInv, HistoryInv, LogOk;
    RunInv(c, states, steps, i);
    assert EntryOk(c, states[i].log, states[i].now, k, states[i].cache[k]);
  }

  /** Single flight: one leader per key; and outside the ownership cache, a key with a running evaluation has
      no entry. */
  lemma SingleFlight(c: Config, states: seq<State>, steps: seq<Step>, i: nat, r: ReqId, w: ReqId, k: Key)
    requires IsRun(c, states, steps) && i < |states| && r in states[i].reqs && w in states[i].reqs
    requires Leads(states[i].reqs[r], k) && Leads(states[i].reqs[w], k)
    ensures r == w
    ensures !k.OwnerKey? ==> k !in states[i].cache
  {
    hide IsRun, CacheInv, ReqInv, HistoryInv, LogOk, Leads;
    RunInv(c, states, steps, i);
    var s := states[i];
    assert s.flight[k] == r;
    assert s.flight[k] == w;
  }

  /** Between two removals of a key from its cache at most one evaluation of it succeeds, however many requests
      arrive. (An ownership key has a second writer, the data evaluation, and is exempt.) */
  lemma OneSuccessPerResidence(c: Config, states: seq<State>, steps: seq<Step>, i: nat, m: nat, n: nat, k: Key)
    requires IsRun(c, states, steps) && i < |states| && m < n < |states[i].log| && !k.OwnerKey?
    requires states[i].log[m].what.Stored? && states[i].log[m].what.key == k
    requires states[i].log[n].what.Stored? && states[i].log[n].what.key == k
    ensures exists x: nat :: m < x < n && Takes(states[i].log[x].what, k)
  {
    hide IsRun, CacheInv, ReqInv, FlightInv, LogOk;
    RunInv(c, states, steps, i);
    assert Puts(states[i].log[m].what, k) && Puts(states[i].log[n].what, k);
    var x: nat :| m < x < n && x < |states[i].log| && Takes(states[i].log[x].what, k);
  }

  // ---------- staleness ----------

  /** Composed staleness bounds, at the moment a blob is served: the ownership answer is at most
      ownership TTL + T old, the resolution of the endpoint it came from at most
      ownership TTL + identity TTL + 2T, a policy answer at most policy TTL + 2T, for processing timeout T. */
  lemma StalenessBound(c: Config, states: seq<State>, steps: seq<Step>, i: nat, r: ReqId)
    requires IsRun(c, states, steps) && i < |states| && WasServed(states[i], r)
    ensures var s := states[i]; var q := s.reqs[r]; var a := ReplyOf(s, r);
            && OriginAt(s.log, a.ownerEv, q.did, q.cid)
            && q.start <= a.time <= q.start + c.timeout
            && a.time - s.log[a.ownerEv].time <= c.ownershipTtl + c.timeout
            && a.time - s.log[s.log[a.ownerEv].what.pds].time <= c.ownershipTtl + c.identityTtl + 2 * c.timeout
            && (a.pass.AllowedAt? ==>
                  a.pass.ev < |s.log| && a.time - s.log[a.pass.ev].time <= c.policyTtl + 2 * c.timeout)
  {
    hide Inv, IsRun, Outlives, Genuine;
    RunInv(c, states, steps, i);
    ServedFacts(c, states[i], r);
  }
}
