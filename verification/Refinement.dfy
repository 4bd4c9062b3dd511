/** The cached proxy against one without caches. Where the ownership of a served blob was noted by a download, the
    cached proxy serves what the cacheless one would have; where only a status was asked, it serves the content of the
    CID without having seen the actor's own copy. */
module Refinement {
  import opened Wrappers
  import opened BlobCids
  import opened BlobRules
  import BodyStreams
  import opened Protocol
  import opened Invariants
  import opened Completion
  import opened Guarantees
  import opened Serving
  import opened Promises
  import opened Vouchers

  // ---------- answers on record ----------

  /** A world that gives the answers on record for a served reply: the policy answer it passed on, the endpoint
      resolved for its actor, the success of that origin for its blob. Bodies are not on record. */
  predicate OnRecord(c: Config, log: seq<Record>, q: Req, a: Reply, w: World)
    requires a.Served?
  {
    && (match a.pass
        case NoClient => !c.hasPolicy
        case AllowedAt(ev) => PolicyAt(log, ev, q.did, q.cid, Allowed) && w.policy == Output(AllowedOutput)
        case FailedOpen(ev) =>
          && c.failOpen && q.born <= ev < |log| && log[ev].what.Errored?
          && log[ev].what.key == PolicyKey(q.did, q.cid) && !w.policy.Output?)
    && OriginAt(log, a.ownerEv, q.did, q.cid) && w.dataOrigin == w.ownerOrigin == Ok
    && PdsAt(log, log[a.ownerEv].what.pds, q.did, log[a.ownerEv].what.url)
    && w.dataPds == w.ownerPds == Resolved(log[a.ownerEv].what.url, Domain)
  }

  /** The policy answer on record for a pass. */
  function PolicyOf(pass: Pass): PolicyAnswer {
    if pass.AllowedAt? then Output(AllowedOutput) else Unanswered
  }

  /** The world of the answers on record, with a body of one's choice. */
  function RecordedWorld(log: seq<Record>, a: Reply, declared: Option<BodyStreams.U64>, chunks: seq<BodyStreams.Chunk>)
    : World
    requires a.Served? && a.ownerEv < |log| && log[a.ownerEv].what.OriginSaid?
  {
    var pds := Resolved(log[a.ownerEv].what.url, Domain);
    World(PolicyOf(a.pass), pds, Ok, declared, None, chunks, pds, Ok)
  }

  lemma RecordedIsOnRecord(c: Config, log: seq<Record>, q: Req, a: Reply,
                           declared: Option<BodyStreams.U64>, chunks: seq<BodyStreams.Chunk>)
    requires a.Served? && PolicyJustified(c, log, q, a.pass) && OwnershipJustified(log, q, a.ownerEv)
    ensures OnRecord(c, log, q, a, RecordedWorld(log, a, declared, chunks))
  {
  }

  /** With a body that comes through and is accepted, the world of the answers on record has a proxy with empty
      caches grant it, at any time. */
  lemma RecordedGrants(c: Config, log: seq<Record>, q: Req, a: Reply, declared: Option<BodyStreams.U64>,
                       chunks: seq<BodyStreams.Chunk>, b: Blob, now: Time)
    requires a.Served? && PolicyJustified(c, log, q, a.pass) && OwnershipJustified(log, q, a.ownerEv)
    requires Downloaded(c.rules, declared, chunks) == Success(b.bytes) && Accept(c.rules, q.cid, b.bytes) == Success(b)
    ensures Serve(c, NO_CACHES, now, q.did, q.cid, RecordedWorld(log, a, declared, chunks)).1 == Granted(b)
  {
    hide Serve, Accept, Genuine, Downloadable, BodyStreams.Body, BodyStreams.Capped;
    var w := RecordedWorld(log, a, declared, chunks);
    assert Declared(w) == declared;
    assert Obtain(c, q.cid, w) == Downloading(b);
    ObtainIff(c, q.cid, w, b);
    ColdServeIff(c, now, q.did, q.cid, w, b);
  }

  // ---------- noted ownership: the origin's own body ----------

  /** The ownership of the reply was noted by a data evaluation. */
  predicate OwnedByDownload(log: seq<Record>, a: Reply)
    requires a.Served?
  {
    var since := Since(log, a.ownerEv);
    since < |log| && log[since].what.Began? && log[since].what.key.DataKey?
  }

  /** Step `n` read the body of the evaluation that the ownership of the reply rests on, from its actor's origin. */
  predicate ReadForOwner(c: Config, states: seq<State>, steps: seq<Step>, n: nat, q: Req, since: Index) {
    && n < |steps| && n < |states| && steps[n].BodyRead? && Reads(c, states[n], steps[n], steps[n].r, since)
    && states[n].reqs[steps[n].r].did == q.did && states[n].reqs[steps[n].r].cid == q.cid
  }

  /** Refinement, where ownership rests on a download. The actor's own origin sent a body in that very evaluation,
      and on this body and the answers on record a proxy without caches grants the served blob, at any time; up to a
      collision of the digest. */
  lemma RefinesUncached(c: Config, states: seq<State>, steps: seq<Step>, i: nat, r: ReqId)
    returns (n: nat, w: World, b: Blob)
    requires IsRun(c, states, steps) && i < |states| && WasServed(states[i], r)
    requires OwnedByDownload(states[i].log, ReplyOf(states[i], r))
    ensures var s := states[i]; var q, a := s.reqs[r], ReplyOf(s, r);
            && n < i && ReadForOwner(c, states, steps, n, q, Since(s.log, a.ownerEv))
            && OnRecord(c, s.log, q, a, w) && Declared(w) == steps[n].declared && w.chunks == steps[n].chunks
            && (forall now: Time :: Serve(c, NO_CACHES, now, q.did, q.cid, w).1 == Granted(b))
            && (a.blob == b || Collide(c.rules, a.blob.bytes, b.bytes))
  {
    hide IsRun, Genuine, Serve, OnRecord, PolicyJustified, OwnershipJustified, Accept, Downloaded, Reads;
    var s := states[i];
    var q, a := s.reqs[r], ReplyOf(s, r);
    ServingSafety(c, states, steps, i, r);
    RunVouched(c, states, steps, i);
    JustifiedOrigin(s.log, q, a.ownerEv);
    var m := NotedOwner(s, q, a);
    n, b := NoteHasBody(c, states, steps, i, Since(s.log, a.ownerEv), q.did, q.cid, m);
    w := RecordedWorld(s.log, a, steps[n].declared, steps[n].chunks);
    RecordedIsOnRecord(c, s.log, q, a, steps[n].declared, steps[n].chunks);
    forall now: Time
      ensures Serve(c, NO_CACHES, now, q.did, q.cid, w).1 == Granted(b)
    {
      RecordedGrants(c, s.log, q, a, steps[n].declared, steps[n].chunks, b, now);
    }
    GenuineIsUnique(c.rules, q.cid, a.blob, b);
  }

  lemma JustifiedOrigin(log: seq<Record>, q: Req, ev: Index)
    requires OwnershipJustified(log, q, ev)
    ensures ev < |log| && log[ev].what.OriginSaid?
  {
  }

  lemma NotedOwner(s: State, q: Req, a: Reply) returns (m: nat)
    requires a.Served? && Vouched(s.log, a.ownerEv, q.did, q.cid) && OwnedByDownload(s.log, a)
    ensures IsNote(s.log, m, Since(s.log, a.ownerEv), q.did, q.cid)
  {
    m :| IsNote(s.log, m, Since(s.log, a.ownerEv), q.did, q.cid);
  }

  // ---------- otherwise: the status alone ----------

  /** The exact split. Either ownership rests on a download, or on an ownership evaluation of the very pair; and then
      no body was read in it: only the status of the origin's answer was looked at. */
  lemma OtherwiseStatusOnly(c: Config, states: seq<State>, steps: seq<Step>, i: nat, r: ReqId, n: nat)
    requires IsRun(c, states, steps) && n < i < |states| && WasServed(states[i], r)
    requires !OwnedByDownload(states[i].log, ReplyOf(states[i], r))
    ensures var s := states[i]; ByStatus(s.log, ReplyOf(s, r).ownerEv, s.reqs[r].did, s.reqs[r].cid)
    ensures var since := Since(states[i].log, ReplyOf(states[i], r).ownerEv);
            steps[n].BodyRead? ==> !Reads(c, states[n], steps[n], steps[n].r, since)
  {
    hide Enabled, Apply, Inv;
    var s := states[i];
    RunInv(c, states, steps, i);
    OwnerAnswer(c, s, r);
    RunInv(c, states, steps, n);
    LogIsKept(c, states, steps, n, i);
    var since := Since(s.log, ReplyOf(s, r).ownerEv);
    assert since < |states[n].log| ==> s.log[since] == states[n].log[since];
    if steps[n].BodyRead? {
      ReaderIsData(c, states[n], steps[n], since);
    }
  }

  /** What kind of evaluation the ownership of a reply rests on. */
  lemma OwnerAnswer(c: Config, s: State, r: ReqId)
    requires Inv(c, s) && WasServed(s, r)
    ensures var q, a := s.reqs[r], ReplyOf(s, r);
            OwnedByDownload(s.log, a) || ByStatus(s.log, a.ownerEv, q.did, q.cid)
  {
    hide CacheInv, FlightInv, HistoryInv, ReqInv, Genuine, Unended, Outlives;
    ServedFacts(c, s, r);
    assert RecordOk(s.log, ReplyOf(s, r).ownerEv);
  }

  lemma ReaderIsData(c: Config, s: State, step: Step, since: Index)
    requires Inv(c, s) && step.BodyRead?
    ensures Reads(c, s, step, step.r, since) ==>
              since < |s.log| && s.log[since].what.Began? && s.log[since].what.key.DataKey?
  {
    hide LogOk, CacheInv, FlightInv, HistoryInv, Unended, ReplyOk, StageOk;
    if Reads(c, s, step, step.r, since) {
      assert ReqOk(c, s.log, s.now, step.r, s.reqs[step.r]);
    }
  }

  /** What the first actor's request leaves behind. */
  lemma FirstServe(c: Config, now: Time, first: Did, second: Did, cid: BlobCid, blob: Blob)
    requires first != second && Genuine(c.rules, cid, blob)
    ensures var cs := Serve(c, NO_CACHES, now, first, cid, GoodWorld(blob)).0;
            && cid in cs.data && cs.data[cid] == Slot(blob, now, now)
            && (second, cid) !in cs.policy && second !in cs.identity && (cid, second) !in cs.ownership
  {
    hide Genuine, Obtain;
    GoodDownload(c, cid, blob);
  }

  /** A second actor, of whom nothing is cached, is served the cached blob on its origin's status. */
  lemma SecondServe(c: Config, cs: Caches, now: Time, second: Did, cid: BlobCid, blob: Blob, other: Blob)
    requires c.dataTti > 0 && cid in cs.data && cs.data[cid] == Slot(blob, now, now)
    requires (second, cid) !in cs.policy && second !in cs.identity && (cid, second) !in cs.ownership
    ensures Serve(c, cs, now, second, cid, GoodWorld(other)).1 == Granted(blob)
  {
    hide Obtain;
  }

  lemma ColdMismatch(c: Config, now: Time, did: Did, cid: BlobCid, other: Blob)
    requires |other.bytes| <= c.rules.maxSize && c.rules.hash(Sha2_256, other.bytes) != cid.hash.digest
    ensures Serve(c, NO_CACHES, now, did, cid, GoodWorld(other)).1 == Denied(DownloadFailed(DownloadError.CidMismatch))
  {
    hide Obtain, CallOwner;
    OtherDownload(c, cid, other);
  }

  /** That is where the two differ. One actor's download is served to a second actor whose origin answers with a
      success and other bytes, and which a proxy without caches refuses for a CID mismatch. */
  lemma StatusIsEnough(c: Config, now: Time, first: Did, second: Did, cid: BlobCid, blob: Blob, other: Blob)
    requires first != second && c.dataTti > 0 && Genuine(c.rules, cid, blob)
    requires |other.bytes| <= c.rules.maxSize && c.rules.hash(Sha2_256, other.bytes) != cid.hash.digest
    ensures var cached := Serve(c, NO_CACHES, now, first, cid, GoodWorld(blob)).0;
            && Serve(c, cached, now, second, cid, GoodWorld(other)).1 == Granted(blob)
            && Serve(c, NO_CACHES, now, second, cid, GoodWorld(other)).1
               == Denied(DownloadFailed(DownloadError.CidMismatch))
  {
    hide Genuine, Serve;
    FirstServe(c, now, first, second, cid, blob);
    SecondServe(c, Serve(c, NO_CACHES, now, first, cid, GoodWorld(blob)).0, now, second, cid, blob, other);
    ColdMismatch(c, now, second, cid, other);
  }

  /** Whatever a proxy without caches grants under the CID of a served blob, in any world and for any actor, is that
      blob, unless the digest has a collision. */
  lemma UncachedGrantsTheSame(c: Config, states: seq<State>, steps: seq<Step>, i: nat, r: ReqId, now: Time, did: Did,
                              w: World, b: Blob)
    requires IsRun(c, states, steps) && i < |states| && WasServed(states[i], r)
    requires Serve(c, NO_CACHES, now, did, states[i].reqs[r].cid, w).1 == Granted(b)
    ensures var a := ReplyOf(states[i], r); a.blob == b || Collide(c.rules, a.blob.bytes, b.bytes)
  {
    hide IsRun, Genuine, Serve, PolicyJustified, OwnershipJustified;
    ServingSafety(c, states, steps, i, r);
    ColdServeIff(c, now, did, states[i].reqs[r].cid, w, b);
    GenuineIsUnique(c.rules, states[i].reqs[r].cid, ReplyOf(states[i], r).blob, b);
  }
}
