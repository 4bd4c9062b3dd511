/** The handlers of `Services` inside the protocol: a handler that no other request disturbs is a run of the
    state machine, so everything `Guarantees` and `Purging` say of runs holds of the handlers. */
module SoloRuns {
  import opened Wrappers
  import opened BlobCids
  import opened BlobRules
  import BodyStreams
  import opened Protocol
  import opened Serving

  // ---------- paths ----------

  /** The state after a sequence of steps, if each of them can be taken. */
  ghost function Path(c: Config, s: State, steps: seq<Step>): Option<State>
    decreases |steps|
  {
    if steps == [] then Some(s)
    else if !Enabled(c, s, steps[0]) then None
    else Path(c, Apply(c, s, steps[0]), steps[1..])
  }

  lemma {:induction false} PathJoins(c: Config, s: State, first: seq<Step>, second: seq<Step>)
    requires Path(c, s, first).Some?
    ensures Path(c, s, first + second) == Path(c, Path(c, s, first).value, second)
    decreases |first|
  {
    hide Enabled, Apply;
    if first == [] {
      assert first + second == second;
    } else {
      assert (first + second)[1..] == first[1..] + second;
      PathJoins(c, Apply(c, s, first[0]), first[1..], second);
    }
  }

  lemma OneStep(c: Config, s: State, step: Step)
    requires Enabled(c, s, step)
    ensures Path(c, s, [step]) == Some(Apply(c, s, step))
  {
    hide Enabled, Apply;
    assert [step][1..] == [];
  }

  /** A path from the end of a run extends the run. */
  lemma {:induction false} PathExtendsRun(c: Config, states: seq<State>, done: seq<Step>, steps: seq<Step>)
    returns (longer: seq<State>)
    requires IsRun(c, states, done) && Path(c, states[|done|], steps).Some?
    ensures IsRun(c, longer, done + steps) && states <= longer
    ensures longer[|done + steps|] == Path(c, states[|done|], steps).value
    decreases |steps|
  {
    hide Enabled, Apply;
    if steps == [] {
      longer := states;
      assert done + steps == done;
    } else {
      var next := states + [Apply(c, states[|done|], steps[0])];
      longer := PathExtendsRun(c, next, done + [steps[0]], steps[1..]);
      assert done + [steps[0]] + steps[1..] == done + steps;
    }
  }

  /** No origin answers along the way. */
  predicate NoOrigin(steps: seq<Step>) {
    forall step :: step in steps ==> !step.OriginReply?
  }

  // ---------- the caches of the services and of the machine ----------

  datatype Seen = Seen(value: Value, at: Time, used: Time)

  function SeenAs<V>(slot: Slot<V>, value: Value): Option<Seen> {
    Some(Seen(value, slot.at, slot.used))
  }

  /** What the services hold under a key of the machine. */
  function Held(cs: Caches, k: Key): Option<Seen> {
    match k
    case PolicyKey(did, cid) =>
      if (did, cid) in cs.policy then SeenAs(cs.policy[(did, cid)], Ruling(cs.policy[(did, cid)].value)) else None
    case PdsKey(did) => if did in cs.identity then SeenAs(cs.identity[did], Endpoint(cs.identity[did].value)) else None
    case DataKey(cid) => if cid in cs.data then SeenAs(cs.data[cid], Content(cs.data[cid].value)) else None
    case OwnerKey(cid, did) => if (cid, did) in cs.ownership then SeenAs(cs.ownership[(cid, did)], Owned) else None
  }

  /** What the machine holds under a key. */
  function Kept(cache: map<Key, Entry>, k: Key): Option<Seen> {
    if k in cache then Some(Seen(cache[k].value, cache[k].at, cache[k].used)) else None
  }

  ghost predicate Represents(cs: Caches, cache: map<Key, Entry>) {
    forall k :: Held(cs, k) == Kept(cache, k)
  }

  /** Of all keys, only `k` may have changed, and it now holds `x`. */
  ghost predicate Changed(cs: Caches, cs': Caches, k: Key, x: Option<Seen>) {
    Held(cs', k) == x && forall y :: y != k ==> Held(cs', y) == Held(cs, y)
  }

  /** The same change on both sides. */
  lemma SameTouch(cs: Caches, cache: map<Key, Entry>, cs': Caches, k: Key, now: Time)
    requires Represents(cs, cache) && k in cache && Changed(cs, cs', k, Some(Seen(cache[k].value, cache[k].at, now)))
    ensures Represents(cs', cache[k := cache[k].(used := now)])
  {
    hide Held;
  }

  lemma SamePut(cs: Caches, cache: map<Key, Entry>, cs': Caches, k: Key, e: Entry)
    requires Represents(cs, cache) && Changed(cs, cs', k, Some(Seen(e.value, e.at, e.used)))
    ensures Represents(cs', cache[k := e]) && Represents(cs', Without(cache, k)[k := e])
  {
    hide Held;
  }

  lemma SameDrop(cs: Caches, cache: map<Key, Entry>, cs': Caches, k: Key)
    requires Represents(cs, cache) && Changed(cs, cs', k, None)
    ensures Represents(cs', Without(cache, k))
  {
    hide Held;
  }

  /** The services and the machine agree on what is in a cache, and on what is still live. */
  lemma SameHit(c: Config, cs: Caches, s: State, k: Key)
    requires Represents(cs, s.cache)
    ensures Hits(c, s, k) <==> LiveIn(c, cs, k, s.now)
    ensures Hits(c, s, k) ==> k in s.cache
    ensures k in s.cache ==> Held(cs, k) == Some(Seen(s.cache[k].value, s.cache[k].at, s.cache[k].used))
  {
    hide Held;
    assert Held(cs, k) == Kept(s.cache, k);
  }

  predicate LiveIn(c: Config, cs: Caches, k: Key, now: Time) {
    Held(cs, k).Some? && var x := Held(cs, k).value; Live(c, k, Entry(x.value, x.at, x.used, 0, 0), now)
  }

  /** What a call of the identity service does to the caches. */
  lemma PdsChanges(c: Config, cs: Caches, now: Time, did: Did, answer: PdsAnswer)
    ensures var (cs1, url) := CallPds(c, cs, now, did, answer); var k := PdsKey(did);
            if LiveIn(c, cs, k, now) then
              var x := Held(cs, k).value;
              url.Success? && x.value == Endpoint(url.value) && Changed(cs, cs1, k, Some(x.(used := now)))
            else
              && url == EndpointOf(answer)
              && Changed(cs, cs1, k, if url.Success? then Some(Seen(Endpoint(url.value), now, now)) else None)
  {
  }

  // ---------- one request alone ----------

  /** No request but `r` waits for an evaluation. */
  ghost predicate Alone(s: State, r: ReqId) {
    r in s.reqs && forall w :: w in s.reqs && w != r ==> !Waiting(s.reqs[w])
  }

  /** The steps lead from `s` to `t` and change nothing but the caches, the running evaluations, the history and
      the progress of `r`. */
  ghost predicate Moves(c: Config, s: State, steps: seq<Step>, t: State, r: ReqId) {
    && Path(c, s, steps) == Some(t) && t.purges == s.purges && t.reqs.Keys == s.reqs.Keys
    && (forall w :: w in s.reqs && w != r ==> t.reqs[w] == s.reqs[w])
  }

  lemma MovesJoin(c: Config, s: State, first: seq<Step>, t: State, second: seq<Step>, u: State, r: ReqId)
    requires Moves(c, s, first, t, r) && Moves(c, t, second, u, r)
    ensures Moves(c, s, first + second, u, r)
  {
    hide Path;
    PathJoins(c, s, first, second);
  }

  predicate SameRequest(q: Req, p: Req) {
    p.did == q.did && p.cid == q.cid && p.start == q.start && p.born == q.born
  }

  /** The same request at the same time. */
  predicate SameCall(s: State, t: State, r: ReqId) {
    r in s.reqs && r in t.reqs && t.now == s.now && SameRequest(s.reqs[r], t.reqs[r])
  }

  /** Request `r` is alone, within its timeout, and at `status`. */
  ghost predicate At(c: Config, s: State, r: ReqId, status: Status) {
    r in s.reqs && Alone(s, r) && s.now <= s.reqs[r].start + c.timeout && s.reqs[r].status == status
  }

  lemma HitStep(c: Config, s: State, r: ReqId) returns (t: State)
    requires Alone(s, r) && CanHit(c, s, r)
    ensures Moves(c, s, [Hit(r)], t, r) && Alone(t, r) && SameCall(s, t, r)
    ensures var q := s.reqs[r]; var e := s.cache[Target(q)];
            && t.cache == s.cache[Target(q) := e.(used := s.now)] && t.flight == s.flight
            && t.reqs[r] == Deliver(q, e.value, e.ev, s.now)
  {
    hide Hits, Target, Looks;
    OneStep(c, s, Hit(r));
    t := DoHit(c, s, r);
  }

  lemma LeadStep(c: Config, s: State, r: ReqId) returns (t: State, since: Index)
    requires Alone(s, r) && CanLead(c, s, r)
    ensures Moves(c, s, [Lead(r)], t, r) && Alone(t, r) && SameCall(s, t, r)
    ensures var k := Target(s.reqs[r]);
            t.cache == Without(s.cache, k) && t.flight == s.flight[k := r] && t.reqs[r] == Led(s.reqs[r], since)
  {
    hide Hits, Target, InPds, Without;
    OneStep(c, s, Lead(r));
    t := DoLead(c, s, r);
    since := |t.log| - 1;
  }

  lemma StoreStep(c: Config, s: State, r: ReqId) returns (t: State, e: Entry)
    requires Alone(s, r) && CanStore(c, s, r)
    ensures Moves(c, s, [Store(r)], t, r) && Alone(t, r) && SameCall(s, t, r)
    ensures var k := Target(s.reqs[r]);
            && t.cache == s.cache[k := e] && e.at == e.used == s.now && e.value == StoredValue(JobOf(s, r))
            && e.ev == JobOf(s, r).ev
            && t.flight == s.flight - {k} && t.reqs[r] == Deliver(s.reqs[r], e.value, e.ev, s.now)
  {
    hide Target, InPds, StoredValue, StoredSince;
    OneStep(c, s, Store(r));
    t := DoStore(c, s, r);
    e := t.cache[Target(s.reqs[r])];
  }

  lemma BreakStep(c: Config, s: State, r: ReqId) returns (t: State)
    requires Alone(s, r) && CanBreak(c, s, r, {})
    ensures Moves(c, s, [Break(r, {})], t, r) && Alone(t, r) && SameCall(s, t, r)
    ensures t.cache == s.cache && t.flight == s.flight - {Target(s.reqs[r])}
    ensures t.reqs[r] == Reject(c, s.reqs[r], FaultOf(JobOf(s, r)), |s.log|)
  {
    hide Target, InPds, FaultOf, BrokenSince;
    OneStep(c, s, Break(r, {}));
    t := DoBreak(c, s, r, {});
  }

  lemma CancelStep(c: Config, s: State, r: ReqId) returns (t: State)
    requires Alone(s, r) && CanCancel(s, r) && forall k :: k in s.flight ==> s.flight[k] == r
    ensures Moves(c, s, [Cancel(r)], t, r) && Alone(t, r) && SameCall(s, t, r)
    ensures t.cache == s.cache && t.flight == map[] && t.reqs[r].status == Done(Refused(Aborted))
  {
    OneStep(c, s, Cancel(r));
    t := DoCancel(c, s, r);
  }

  /** `r` runs an evaluation and is at `job` of it. */
  ghost predicate Working(c: Config, s: State, r: ReqId, stage: Stage, since: Index, job: Job) {
    At(c, s, r, Active(stage, Run(since, job)))
  }

  /** The step moves `r` to another job and changes nothing but the history. */
  ghost predicate JobMoved(c: Config, s: State, step: Step, t: State, r: ReqId, stage: Stage, since: Index, job: Job) {
    && Moves(c, s, [step], t, r) && SameCall(s, t, r) && t.flight == s.flight && Working(c, t, r, stage, since, job)
  }

  lemma PolicyReplyStep(c: Config, s: State, r: ReqId, stage: Stage, since: Index, d: Decision)
    returns (t: State, ev: Index)
    requires Working(c, s, r, stage, since, Query)
    ensures JobMoved(c, s, PolicyReply(r, d), t, r, stage, since, Keep(Ruling(d), ev)) && t.cache == s.cache
  {
    OneStep(c, s, PolicyReply(r, d));
    t := DoPolicyReply(c, s, r, d);
    ev := |s.log|;
  }

  lemma PdsReplyStep(c: Config, s: State, r: ReqId, stage: Stage, since: Index, pdsSince: Index, url: Url)
    returns (t: State, ev: Index)
    requires Working(c, s, r, stage, since, QueryPds(pdsSince))
    ensures JobMoved(c, s, PdsReply(r, url), t, r, stage, since, KeepPds(url, ev, pdsSince)) && t.cache == s.cache
  {
    OneStep(c, s, PdsReply(r, url));
    t := DoPdsReply(c, s, r, url);
    ev := |s.log|;
  }

  lemma OriginReplyStep(c: Config, s: State, r: ReqId, stage: Stage, since: Index, url: Url, pds: Index,
                        answer: OriginAnswer)
    returns (t: State, ev: Index)
    requires Working(c, s, r, stage, since, Fetch(url, pds)) && !stage.PolicyCheck?
    ensures var job := if answer == Ok then if stage.OwnerCheck? then Keep(Owned, ev) else Body(ev)
                       else Broken(if stage.OwnerCheck? then OwnerFault(OwnershipErrorOf(answer))
                                   else DataFault(DownloadErrorOf(answer)));
            JobMoved(c, s, OriginReply(r, answer), t, r, stage, since, job) && t.cache == s.cache
  {
    OneStep(c, s, OriginReply(r, answer));
    t := DoOriginReply(c, s, r, answer);
    ev := |s.log|;
  }

  lemma BodyReadStep(c: Config, s: State, r: ReqId, stage: Stage, since: Index, ev: Index,
                     declared: Option<BodyStreams.U64>, chunks: seq<BodyStreams.Chunk>)
    returns (t: State)
    requires Working(c, s, r, stage, since, Body(ev)) && !Panics(c.rules, declared, chunks)
    ensures var body := Downloaded(c.rules, declared, chunks);
            var job := if body.Success? then Check(body.value, ev) else Broken(DataFault(body.error));
            JobMoved(c, s, BodyRead(r, declared, chunks), t, r, stage, since, job) && t.cache == s.cache
  {
    hide Panics, Downloaded;
    OneStep(c, s, BodyRead(r, declared, chunks));
    t := DoBodyRead(c, s, r, declared, chunks);
  }

  lemma VerifyApplies(c: Config, s: State, r: ReqId)
    requires CanVerify(c, s, r)
    ensures Path(c, s, [Verify(r)]) == Some(DoVerify(c, s, r))
  {
    hide DoVerify;
    OneStep(c, s, Verify(r));
  }

  /** On success the actor's ownership is in its cache when the data is not yet in its own. */
  lemma VerifyStep(c: Config, s: State, r: ReqId, stage: Stage, since: Index, bytes: BodyStreams.Buffer, ev: Index)
    returns (t: State, e: Entry)
    requires Working(c, s, r, stage, since, Check(bytes, ev))
    ensures var q := s.reqs[r]; var verdict := Accept(c.rules, q.cid, bytes);
            var job := if verdict.Success? then Keep(Content(verdict.value), ev) else Broken(DataFault(verdict.error));
            && JobMoved(c, s, Verify(r), t, r, stage, since, job)
            && t.cache == (if verdict.Success? then s.cache[OwnerKey(q.cid, q.did) := e] else s.cache)
            && e.value == Owned && e.at == e.used == s.now
  {
    hide Accept, Apply, Path;
    e := Entry(Owned, s.now, s.now, ev, |s.log|);
    t := DoVerify(c, s, r);
    VerifyApplies(c, s, r);
  }

  // ---------- one cache call alone ----------

  /** A call of the identity service, from inside a data or an ownership evaluation. */
  lemma SoloPds(c: Config, s: State, r: ReqId, stage: Stage, since: Index, cs: Caches, answer: PdsAnswer)
    returns (steps: seq<Step>, t: State)
    requires Working(c, s, r, stage, since, AskPds) && !stage.PolicyCheck?
    requires Represents(cs, s.cache) && PdsKey(s.reqs[r].did) !in s.flight
    ensures Moves(c, s, steps, t, r) && Alone(t, r) && SameCall(s, t, r) && t.flight == s.flight
    ensures var (cs1, url) := CallPds(c, cs, s.now, s.reqs[r].did, answer);
            && Represents(cs1, t.cache)
            && AfterPds(t.reqs[r].status, stage, since, url)
  {
    hide Moves, Alone, Represents, Deliver, Reject, Without, Changed, Hits, Held, LiveIn, CallPds, EndpointOf;
    var did := s.reqs[r].did;
    var k := PdsKey(did);
    var (cs1, url) := CallPds(c, cs, s.now, did, answer);
    SameHit(c, cs, s, k);
    PdsChanges(c, cs, s.now, did, answer);
    if Hits(c, s, k) {
      steps := [Hit(r)];
      t := HitStep(c, s, r);
      SameTouch(cs, s.cache, cs1, k, s.now);
      PdsDelivered(s.reqs[r], stage, since, url.value, s.cache[k].ev, s.now);
    } else {
      var s1, pdsSince := LeadStep(c, s, r);
      if url.Success? {
        var s2, ev := PdsReplyStep(c, s1, r, stage, since, pdsSince, url.value);
        var e;
        t, e := StoreStep(c, s2, r);
        steps := [Lead(r)] + [PdsReply(r, url.value)] + [Store(r)];
        MovesJoin(c, s, [Lead(r)], s1, [PdsReply(r, url.value)], s2, r);
        MovesJoin(c, s, [Lead(r)] + [PdsReply(r, url.value)], s2, [Store(r)], t, r);
        SamePut(cs, s.cache, cs1, k, e);
        PdsDelivered(s2.reqs[r], stage, since, url.value, e.ev, s.now);
      } else {
        t := BreakStep(c, s1, r);
        steps := [Lead(r)] + [Break(r, {})];
        MovesJoin(c, s, [Lead(r)], s1, [Break(r, {})], t, r);
        SameDrop(cs, s.cache, cs1, k);
        PdsRejected(c, s1.reqs[r], stage, since, |s1.log|);
      }
    }
  }

  /** Where a request is once its call of the identity service has returned. */
  predicate AfterPds(status: Status, stage: Stage, since: Index, url: Result<Url, IdentityError>) {
    && status.Active? && status.stage == stage && status.point.Run? && status.point.since == since
    && var job := status.point.job;
       match url
       case Success(u) => job.Fetch? && job.url == u
       case Failure(_) =>
         job == Broken(if stage.OwnerCheck? then OwnerFault(OwnerResolutionFailure) else DataFault(ResolutionFailure))
  }

  lemma PdsDelivered(q: Req, stage: Stage, since: Index, url: Url, ev: Index, now: Time)
    requires q.status.Active? && q.status.stage == stage && InPds(q.status.point) && q.status.point.since == since
    ensures var q' := Deliver(q, Endpoint(url), ev, now);
            AfterPds(q'.status, stage, since, Success(url)) && SameRequest(q, q')
  {
  }

  lemma PdsRejected(c: Config, q: Req, stage: Stage, since: Index, ev: Index)
    requires q.status.Active? && q.status.stage == stage && InPds(q.status.point) && q.status.point.since == since
    ensures forall e :: AfterPds(Reject(c, q, PdsFault, ev).status, stage, since, Failure(e))
  {
  }

  lemma PolicyChanges(c: Config, cs: Caches, now: Time, did: Did, cid: BlobCid, answer: PolicyAnswer)
    ensures var (cs1, d) := CallPolicy(c, cs, now, did, cid, answer); var k := PolicyKey(did, cid);
            if LiveIn(c, cs, k, now) then
              var x := Held(cs, k).value;
              d.Success? && x.value == Ruling(d.value) && Changed(cs, cs1, k, Some(x.(used := now)))
            else
              && d == DecisionOf(answer)
              && Changed(cs, cs1, k, if d.Success? then Some(Seen(Ruling(d.value), now, now)) else None)
  {
  }

  /** Where a request is once its policy call has returned. */
  predicate AfterPolicy(c: Config, status: Status, d: Result<Decision, PolicyError>) {
    match d
    case Success(Allowed) => status.Active? && status.stage.DataFetch? && status.point.Ask?
    case Success(Forbidden) => status == Done(Refused(PolicyForbids))
    case Failure(_) =>
      if c.failOpen then status.Active? && status.stage.DataFetch? && status.point.Ask?
      else status == Done(Refused(PolicyUnavailable))
  }

  lemma PolicyDelivered(c: Config, q: Req, d: Decision, ev: Index, now: Time)
    requires q.status.Active? && q.status.stage.PolicyCheck? && !InPds(q.status.point)
    ensures var q' := Deliver(q, Ruling(d), ev, now);
            AfterPolicy(c, q'.status, Success(d)) && SameRequest(q, q')
  {
  }

  lemma PolicyRejected(c: Config, q: Req, ev: Index)
    requires q.status.Active? && q.status.stage.PolicyCheck? && !InPds(q.status.point)
    ensures forall e :: AfterPolicy(c, Reject(c, q, PolicyFault, ev).status, Failure(e))
  {
  }

  lemma SoloPolicy(c: Config, s: State, r: ReqId, cs: Caches, answer: PolicyAnswer) returns (steps: seq<Step>, t: State)
    requires At(c, s, r, Active(PolicyCheck, Ask)) && c.hasPolicy
    requires Represents(cs, s.cache) && s.flight == map[]
    ensures Moves(c, s, steps, t, r) && Alone(t, r) && SameCall(s, t, r) && t.flight == map[]
    ensures NoOrigin(steps)
    ensures var (cs1, d) := CallPolicy(c, cs, s.now, s.reqs[r].did, s.reqs[r].cid, answer);
            Represents(cs1, t.cache) && AfterPolicy(c, t.reqs[r].status, d)
  {
    hide Moves, Alone, Represents, Deliver, Reject, Without, Changed, Hits, Held, LiveIn, CallPolicy, DecisionOf;
    var did, cid := s.reqs[r].did, s.reqs[r].cid;
    var k := PolicyKey(did, cid);
    var (cs1, d) := CallPolicy(c, cs, s.now, did, cid, answer);
    SameHit(c, cs, s, k);
    PolicyChanges(c, cs, s.now, did, cid, answer);
    if Hits(c, s, k) {
      steps := [Hit(r)];
      t := HitStep(c, s, r);
      SameTouch(cs, s.cache, cs1, k, s.now);
      PolicyDelivered(c, s.reqs[r], d.value, s.cache[k].ev, s.now);
    } else {
      var s1, since := LeadStep(c, s, r);
      if d.Success? {
        var s2, ev := PolicyReplyStep(c, s1, r, PolicyCheck, since, d.value);
        var e;
        t, e := StoreStep(c, s2, r);
        steps := [Lead(r)] + [PolicyReply(r, d.value)] + [Store(r)];
        MovesJoin(c, s, [Lead(r)], s1, [PolicyReply(r, d.value)], s2, r);
        MovesJoin(c, s, [Lead(r)] + [PolicyReply(r, d.value)], s2, [Store(r)], t, r);
        SamePut(cs, s.cache, cs1, k, e);
        PolicyDelivered(c, s2.reqs[r], d.value, e.ev, s.now);
      } else {
        t := BreakStep(c, s1, r);
        steps := [Lead(r)] + [Break(r, {})];
        MovesJoin(c, s, [Lead(r)], s1, [Break(r, {})], t, r);
        SameDrop(cs, s.cache, cs1, k);
        PolicyRejected(c, s1.reqs[r], |s1.log|);
      }
    }
  }

  /** Where a request is once its ownership call has returned. */
  predicate AfterOwner(status: Status, stage: Stage, owned: Result<(), OwnershipError>) {
    match owned
    case Success(_) =>
      && stage.OwnerCheck? && status.Done? && status.reply.Served?
      && status.reply.blob == stage.blob && status.reply.pass == stage.pass
    case Failure(e) => status == Done(Refused(OwnershipFailed(e)))
  }

  lemma OwnerDelivered(q: Req, v: Value, ev: Index, now: Time)
    requires q.status.Active? && q.status.stage.OwnerCheck? && !InPds(q.status.point)
    ensures var q' := Deliver(q, v, ev, now);
            && AfterOwner(q'.status, q.status.stage, Success(()))
            && SameRequest(q, q')
  {
  }

  lemma OwnerRejected(c: Config, q: Req, e: OwnershipError, ev: Index)
    requires q.status.Active? && q.status.stage.OwnerCheck? && !InPds(q.status.point)
    ensures AfterOwner(Reject(c, q, OwnerFault(e), ev).status, q.status.stage, Failure(e))
  {
  }

  lemma OwnershipPut(cs: Caches, cid: BlobCid, did: Did, now: Time)
    ensures Changed(cs, cs.(ownership := cs.ownership[(cid, did) := Slot((), now, now)]), OwnerKey(cid, did),
                    Some(Seen(Owned, now, now)))
  {
  }

  /** The end of an ownership evaluation: the origin's answer. */
  lemma SoloAnswer(c: Config, s: State, r: ReqId, stage: Stage, since: Index, url: Url, pds: Index,
                   cs: Caches, w: World)
    returns (steps: seq<Step>, t: State)
    requires Working(c, s, r, stage, since, Fetch(url, pds)) && stage.OwnerCheck?
    requires Represents(cs, s.cache) && s.flight == map[OwnerKey(s.reqs[r].cid, s.reqs[r].did) := r]
    ensures Moves(c, s, steps, t, r) && Alone(t, r) && SameCall(s, t, r) && t.flight == map[]
    ensures var k := (s.reqs[r].cid, s.reqs[r].did);
            if w.ownerOrigin == Ok then
              && Represents(cs.(ownership := cs.ownership[k := Slot((), s.now, s.now)]), t.cache)
              && AfterOwner(t.reqs[r].status, stage, Success(()))
            else
              && Represents(cs, t.cache)
              && AfterOwner(t.reqs[r].status, stage, Failure(OwnershipErrorOf(w.ownerOrigin)))
  {
    hide Moves, Alone, Represents, Deliver, Reject, Without, Changed, Held, AfterOwner;
    var did, cid := s.reqs[r].did, s.reqs[r].cid;
    var s1, ev := OriginReplyStep(c, s, r, stage, since, url, pds, w.ownerOrigin);
    if w.ownerOrigin != Ok {
      t := BreakStep(c, s1, r);
      steps := [OriginReply(r, w.ownerOrigin)] + [Break(r, {})];
      MovesJoin(c, s, [OriginReply(r, w.ownerOrigin)], s1, [Break(r, {})], t, r);
      OwnerRejected(c, s1.reqs[r], OwnershipErrorOf(w.ownerOrigin), |s1.log|);
    } else {
      var e;
      t, e := StoreStep(c, s1, r);
      steps := [OriginReply(r, w.ownerOrigin)] + [Store(r)];
      MovesJoin(c, s, [OriginReply(r, w.ownerOrigin)], s1, [Store(r)], t, r);
      OwnershipPut(cs, cid, did, s.now);
      var owned := cs.(ownership := cs.ownership[(cid, did) := Slot((), s.now, s.now)]);
      SamePut(cs, s1.cache, owned, OwnerKey(cid, did), e);
      OwnerDelivered(s1.reqs[r], e.value, e.ev, s.now);
    }
  }

  /** An ownership evaluation, from its start. */
  lemma SoloOwnerRuns(c: Config, s: State, r: ReqId, stage: Stage, since: Index, cs: Caches, w: World)
    returns (steps: seq<Step>, t: State)
    requires Working(c, s, r, stage, since, AskPds) && stage.OwnerCheck?
    requires Represents(cs, s.cache) && s.flight == map[OwnerKey(s.reqs[r].cid, s.reqs[r].did) := r]
    ensures Moves(c, s, steps, t, r) && Alone(t, r) && SameCall(s, t, r) && t.flight == map[]
    ensures var (cs1, owned) := EvaluateOwner(c, cs, s.now, s.reqs[r].did, s.reqs[r].cid, w);
            Represents(cs1, t.cache) && AfterOwner(t.reqs[r].status, stage, owned)
  {
    hide Moves, Alone, Represents, Reject, CallPds, AfterOwner;
    var (cs1, url) := CallPds(c, cs, s.now, s.reqs[r].did, w.ownerPds);
    var head, s1 := SoloPds(c, s, r, stage, since, cs, w.ownerPds);
    var tail;
    if url.Failure? {
      t := BreakStep(c, s1, r);
      tail := [Break(r, {})];
      OwnerRejected(c, s1.reqs[r], OwnerResolutionFailure, |s1.log|);
    } else {
      var job := s1.reqs[r].status.point.job;
      tail, t := SoloAnswer(c, s1, r, stage, since, job.url, job.pds, cs1, w);
    }
    steps := head + tail;
    MovesJoin(c, s, head, s1, tail, t, r);
  }

  lemma OwnerCallChanges(c: Config, cs: Caches, now: Time, did: Did, cid: BlobCid, w: World)
    ensures var (cs1, owned) := CallOwner(c, cs, now, did, cid, w); var k := OwnerKey(cid, did);
            if LiveIn(c, cs, k, now) then
              owned.Success? && Changed(cs, cs1, k, Some(Held(cs, k).value.(used := now)))
            else
              var dropped := cs.(ownership := cs.ownership - {(cid, did)});
              Changed(cs, dropped, k, None) && (cs1, owned) == EvaluateOwner(c, dropped, now, did, cid, w)
  {
    hide EvaluateOwner;
  }

  lemma SoloOwner(c: Config, s: State, r: ReqId, stage: Stage, cs: Caches, w: World)
    returns (steps: seq<Step>, t: State)
    requires At(c, s, r, Active(stage, Ask)) && stage.OwnerCheck?
    requires Represents(cs, s.cache) && s.flight == map[]
    ensures Moves(c, s, steps, t, r) && Alone(t, r) && SameCall(s, t, r) && t.flight == map[]
    ensures var (cs1, owned) := CallOwner(c, cs, s.now, s.reqs[r].did, s.reqs[r].cid, w);
            Represents(cs1, t.cache) && AfterOwner(t.reqs[r].status, stage, owned)
  {
    hide Moves, Alone, Represents, Deliver, Reject, Without, Changed, Hits, Held, LiveIn, CallOwner, EvaluateOwner;
    var did, cid := s.reqs[r].did, s.reqs[r].cid;
    var k := OwnerKey(cid, did);
    SameHit(c, cs, s, k);
    OwnerCallChanges(c, cs, s.now, did, cid, w);
    if Hits(c, s, k) {
      steps := [Hit(r)];
      t := HitStep(c, s, r);
      SameTouch(cs, s.cache, CallOwner(c, cs, s.now, did, cid, w).0, k, s.now);
      OwnerDelivered(s.reqs[r], s.cache[k].value, s.cache[k].ev, s.now);
    } else {
      var dropped := cs.(ownership := cs.ownership - {(cid, did)});
      var s1, since := LeadStep(c, s, r);
      SameDrop(cs, s.cache, dropped, k);
      var tail;
      tail, t := SoloOwnerRuns(c, s1, r, stage, since, dropped, w);
      steps := [Lead(r)] + tail;
      MovesJoin(c, s, [Lead(r)], s1, tail, t, r);
    }
  }

  /** Where a request is once its data call has returned, or has brought it down. */
  predicate AfterData(status: Status, stage: Stage, download: Download) {
    match download
    case Downloading(blob) =>
      && stage.DataFetch? && status.Active? && status.stage.OwnerCheck? && status.point.Ask?
      && status.stage.blob == blob && status.stage.pass == stage.pass
    case Failed(e) => status == Done(Refused(DownloadFailed(e)))
    case Crashed => status == Done(Refused(Aborted))
  }

  lemma DataDelivered(q: Req, blob: Blob, ev: Index, now: Time)
    requires q.status.Active? && q.status.stage.DataFetch? && !InPds(q.status.point)
    ensures var q' := Deliver(q, Content(blob), ev, now);
            AfterData(q'.status, q.status.stage, Downloading(blob)) && SameRequest(q, q')
  {
  }

  lemma DataRejected(c: Config, q: Req, e: DownloadError, ev: Index)
    requires q.status.Active? && q.status.stage.DataFetch? && !InPds(q.status.point)
    ensures AfterData(Reject(c, q, DataFault(e), ev).status, q.status.stage, Failed(e))
  {
  }

  lemma DataPut(cs: Caches, cid: BlobCid, blob: Blob, now: Time)
    ensures Changed(cs, cs.(data := cs.data[cid := Slot(blob, now, now)]), DataKey(cid),
                    Some(Seen(Content(blob), now, now)))
  {
  }

  /** A data evaluation that breaks leaves the caches as they are. */
  lemma SoloDataBreaks(c: Config, s: State, r: ReqId, stage: Stage, since: Index, e: DownloadError) returns (t: State)
    requires Working(c, s, r, stage, since, Broken(DataFault(e))) && stage.DataFetch?
    requires s.flight == map[DataKey(s.reqs[r].cid) := r]
    ensures Moves(c, s, [Break(r, {})], t, r) && Alone(t, r) && SameCall(s, t, r) && t.flight == map[]
    ensures t.cache == s.cache && AfterData(t.reqs[r].status, stage, Failed(e))
  {
    hide Moves, Alone, Reject;
    t := BreakStep(c, s, r);
    DataRejected(c, s.reqs[r], e, |s.log|);
  }

  /** The end of a data evaluation: the checks on the downloaded bytes. */
  lemma SoloChecks(c: Config, s: State, r: ReqId, stage: Stage, since: Index,
                   bytes: BodyStreams.Buffer, ev: Index, cs: Caches)
    returns (steps: seq<Step>, t: State)
    requires Working(c, s, r, stage, since, Check(bytes, ev)) && stage.DataFetch?
    requires Represents(cs, s.cache) && s.flight == map[DataKey(s.reqs[r].cid) := r]
    ensures Moves(c, s, steps, t, r) && Alone(t, r) && SameCall(s, t, r) && t.flight == map[]
    ensures NoOrigin(steps)
    ensures var did, cid := s.reqs[r].did, s.reqs[r].cid;
            match Accept(c.rules, cid, bytes)
            case Failure(e) => Represents(cs, t.cache) && AfterData(t.reqs[r].status, stage, Failed(e))
            case Success(blob) =>
              && Represents(cs.(ownership := cs.ownership[(cid, did) := Slot((), s.now, s.now)],
                                data := cs.data[cid := Slot(blob, s.now, s.now)]), t.cache)
              && AfterData(t.reqs[r].status, stage, Downloading(blob))
  {
    hide Moves, Alone, Represents, Deliver, Reject, Changed, Held, Accept;
    var did, cid := s.reqs[r].did, s.reqs[r].cid;
    var verdict := Accept(c.rules, cid, bytes);
    var s1, noted := VerifyStep(c, s, r, stage, since, bytes, ev);
    if verdict.Failure? {
      t := SoloDataBreaks(c, s1, r, stage, since, verdict.error);
      steps := [Verify(r)] + [Break(r, {})];
      MovesJoin(c, s, [Verify(r)], s1, [Break(r, {})], t, r);
    } else {
      var owned := cs.(ownership := cs.ownership[(cid, did) := Slot((), s.now, s.now)]);
      OwnershipPut(cs, cid, did, s.now);
      SamePut(cs, s.cache, owned, OwnerKey(cid, did), noted);
      var e;
      t, e := StoreStep(c, s1, r);
      steps := [Verify(r)] + [Store(r)];
      MovesJoin(c, s, [Verify(r)], s1, [Store(r)], t, r);
      DataPut(owned, cid, verdict.value, s.now);
      SamePut(owned, s1.cache, owned.(data := cs.data[cid := Slot(verdict.value, s.now, s.now)]), DataKey(cid), e);
      DataDelivered(s1.reqs[r], verdict.value, e.ev, s.now);
    }
  }

  /** The middle of a data evaluation: the origin's answer and the body. */
  lemma SoloDownload(c: Config, s: State, r: ReqId, stage: Stage, since: Index, url: Url, pds: Index,
                     cs: Caches, w: World)
    returns (steps: seq<Step>, t: State)
    requires Working(c, s, r, stage, since, Fetch(url, pds)) && stage.DataFetch?
    requires Represents(cs, s.cache) && s.flight == map[DataKey(s.reqs[r].cid) := r]
    ensures Moves(c, s, steps, t, r) && Alone(t, r) && SameCall(s, t, r) && t.flight == map[]
    ensures var did, cid := s.reqs[r].did, s.reqs[r].cid; var download := Obtain(c, cid, w);
            && AfterData(t.reqs[r].status, stage, download)
            && Represents(if download.Downloading? then
                            cs.(ownership := cs.ownership[(cid, did) := Slot((), s.now, s.now)],
                                data := cs.data[cid := Slot(download.blob, s.now, s.now)])
                          else cs, t.cache)
  {
    hide Moves, Alone, Represents, Accept, Panics, Downloaded, AfterData;
    var s1, ev := OriginReplyStep(c, s, r, stage, since, url, pds, w.dataOrigin);
    var tail;
    if w.dataOrigin != Ok {
      t := SoloDataBreaks(c, s1, r, stage, since, DownloadErrorOf(w.dataOrigin));
      tail := [Break(r, {})];
    } else if Panics(c.rules, Declared(w), w.chunks) {
      t := CancelStep(c, s1, r);
      tail := [Cancel(r)];
      assert AfterData(t.reqs[r].status, stage, Crashed) by { CrashIsAbort(t.reqs[r].status, stage); }
    } else {
      var body := Downloaded(c.rules, Declared(w), w.chunks);
      var s2 := BodyReadStep(c, s1, r, stage, since, ev, Declared(w), w.chunks);
      var rest;
      if body.Failure? {
        t := SoloDataBreaks(c, s2, r, stage, since, body.error);
        rest := [Break(r, {})];
      } else {
        rest, t := SoloChecks(c, s2, r, stage, since, body.value, ev, cs);
      }
      tail := [BodyRead(r, Declared(w), w.chunks)] + rest;
      MovesJoin(c, s1, [BodyRead(r, Declared(w), w.chunks)], s2, rest, t, r);
    }
    steps := [OriginReply(r, w.dataOrigin)] + tail;
    MovesJoin(c, s, [OriginReply(r, w.dataOrigin)], s1, tail, t, r);
  }

  lemma CrashIsAbort(status: Status, stage: Stage)
    requires status == Done(Refused(Aborted))
    ensures AfterData(status, stage, Crashed)
  {
  }

  /** A data evaluation, from its start. */
  lemma SoloDataRuns(c: Config, s: State, r: ReqId, stage: Stage, since: Index, cs: Caches, w: World)
    returns (steps: seq<Step>, t: State)
    requires Working(c, s, r, stage, since, AskPds) && stage.DataFetch?
    requires Represents(cs, s.cache) && s.flight == map[DataKey(s.reqs[r].cid) := r]
    ensures Moves(c, s, steps, t, r) && Alone(t, r) && SameCall(s, t, r) && t.flight == map[]
    ensures var (cs1, download) := EvaluateData(c, cs, s.now, s.reqs[r].did, s.reqs[r].cid, w);
            Represents(cs1, t.cache) && AfterData(t.reqs[r].status, stage, download)
  {
    hide Moves, Alone, Represents, CallPds, Obtain, AfterData;
    var (cs1, url) := CallPds(c, cs, s.now, s.reqs[r].did, w.dataPds);
    var head, s1 := SoloPds(c, s, r, stage, since, cs, w.dataPds);
    var tail;
    if url.Failure? {
      t := SoloDataBreaks(c, s1, r, stage, since, ResolutionFailure);
      tail := [Break(r, {})];
    } else {
      var job := s1.reqs[r].status.point.job;
      tail, t := SoloDownload(c, s1, r, stage, since, job.url, job.pds, cs1, w);
    }
    steps := head + tail;
    MovesJoin(c, s, head, s1, tail, t, r);
  }

  lemma DataCallChanges(c: Config, cs: Caches, now: Time, did: Did, cid: BlobCid, w: World)
    ensures var (cs1, download) := CallData(c, cs, now, did, cid, w); var k := DataKey(cid);
            if LiveIn(c, cs, k, now) then
              var x := Held(cs, k).value;
              download.Downloading? && x.value == Content(download.blob) && Changed(cs, cs1, k, Some(x.(used := now)))
            else
              var dropped := cs.(data := cs.data - {cid});
              Changed(cs, dropped, k, None) && (cs1, download) == EvaluateData(c, dropped, now, did, cid, w)
  {
    hide EvaluateData;
  }

  lemma SoloData(c: Config, s: State, r: ReqId, stage: Stage, cs: Caches, w: World) returns (steps: seq<Step>, t: State)
    requires At(c, s, r, Active(stage, Ask)) && stage.DataFetch?
    requires Represents(cs, s.cache) && s.flight == map[]
    ensures Moves(c, s, steps, t, r) && Alone(t, r) && SameCall(s, t, r) && t.flight == map[]
    ensures var (cs1, download) := CallData(c, cs, s.now, s.reqs[r].did, s.reqs[r].cid, w);
            Represents(cs1, t.cache) && AfterData(t.reqs[r].status, stage, download)
  {
    hide Moves, Alone, Represents, Deliver, Reject, Without, Changed, Hits, Held, LiveIn,
      CallData, EvaluateData, AfterData;
    var did, cid := s.reqs[r].did, s.reqs[r].cid;
    var k := DataKey(cid);
    SameHit(c, cs, s, k);
    DataCallChanges(c, cs, s.now, did, cid, w);
    if Hits(c, s, k) {
      var (cs1, download) := CallData(c, cs, s.now, did, cid, w);
      steps := [Hit(r)];
      t := HitStep(c, s, r);
      SameTouch(cs, s.cache, cs1, k, s.now);
      DataDelivered(s.reqs[r], download.blob, s.cache[k].ev, s.now);
    } else {
      var dropped := cs.(data := cs.data - {cid});
      var s1, since := LeadStep(c, s, r);
      SameDrop(cs, s.cache, dropped, k);
      var tail;
      tail, t := SoloDataRuns(c, s1, r, stage, since, dropped, w);
      steps := [Lead(r)] + tail;
      MovesJoin(c, s, [Lead(r)], s1, tail, t, r);
    }
  }

  // ---------- a whole handler alone ----------

  predicate Ended(status: Status, o: Outcome) {
    status.Done? &&
    match o
    case Granted(blob) => status.reply.Served? && status.reply.blob == blob
    case Denied(refusal) => status.reply == Refused(refusal)
  }

  lemma SoloServeBlob(c: Config, s: State, r: ReqId, stage: Stage, cs: Caches, w: World)
    returns (steps: seq<Step>, t: State)
    requires At(c, s, r, Active(stage, Ask)) && stage.DataFetch?
    requires Represents(cs, s.cache) && s.flight == map[]
    ensures Moves(c, s, steps, t, r) && Alone(t, r) && SameCall(s, t, r) && t.flight == map[]
    ensures var (cs1, o) := ServeBlob(c, cs, s.now, s.reqs[r].did, s.reqs[r].cid, w);
            Represents(cs1, t.cache) && Ended(t.reqs[r].status, o)
    ensures t.reqs[r].status.Done? && t.reqs[r].status.reply.Served? ==> t.reqs[r].status.reply.pass == stage.pass
  {
    hide Moves, Alone, Represents, CallData, CallOwner;
    var (cs1, download) := CallData(c, cs, s.now, s.reqs[r].did, s.reqs[r].cid, w);
    steps, t := SoloData(c, s, r, stage, cs, w);
    if download.Downloading? {
      var s1, head := t, steps;
      var tail;
      tail, t := SoloOwner(c, s1, r, s1.reqs[r].status.stage, cs1, w);
      steps := head + tail;
      MovesJoin(c, s, head, s1, tail, t, r);
    }
  }

  lemma SoloServe(c: Config, s: State, r: ReqId, cs: Caches, w: World) returns (steps: seq<Step>, t: State)
    requires At(c, s, r, Active(PolicyCheck, Ask))
    requires Represents(cs, s.cache) && s.flight == map[]
    ensures Moves(c, s, steps, t, r) && Alone(t, r) && SameCall(s, t, r) && t.flight == map[]
    ensures var (cs1, o) := Serve(c, cs, s.now, s.reqs[r].did, s.reqs[r].cid, w);
            Represents(cs1, t.cache) && Ended(t.reqs[r].status, o)
  {
    hide Moves, Alone, Represents, CallPolicy, ServeBlob;
    var head, s1, cs1;
    if c.hasPolicy {
      var (after, d) := CallPolicy(c, cs, s.now, s.reqs[r].did, s.reqs[r].cid, w.policy);
      head, s1 := SoloPolicy(c, s, r, cs, w.policy);
      cs1 := after;
      if d == Success(Forbidden) || (d.Failure? && !c.failOpen) {
        return head, s1;
      }
    } else {
      s1 := SkipStep(c, s, r);
      head, cs1 := [SkipPolicy(r)], cs;
    }
    var tail;
    tail, t := SoloServeBlob(c, s1, r, s1.reqs[r].status.stage, cs1, w);
    steps := head + tail;
    MovesJoin(c, s, head, s1, tail, t, r);
  }

  lemma SkipStep(c: Config, s: State, r: ReqId) returns (t: State)
    requires At(c, s, r, Active(PolicyCheck, Ask)) && !c.hasPolicy
    ensures Moves(c, s, [SkipPolicy(r)], t, r) && Alone(t, r) && SameCall(s, t, r)
    ensures t.cache == s.cache && t.flight == s.flight && t.reqs[r].status == Active(DataFetch(NoClient), Ask)
  {
    OneStep(c, s, SkipPolicy(r));
    t := DoSkip(c, s, r);
  }
}
