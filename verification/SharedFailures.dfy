/** A refusal that is another actor's: whoever waits for a download shares its failure, for whichever actor it was
    led. */
module SharedFailures {
  import opened Wrappers
  import opened BlobCids
  import opened BlobRules
  import opened Protocol
  import opened Invariants
  import opened Completion
  import opened Serving
  import opened SoloRuns
  import opened PurgeRaces

  /** The second actor's request has passed the policy and not yet asked for the blob; the first actor's has led the
      download and been told by its origin that there is no such blob. */
  lemma FirstActorFails(c: Config, first: Did, second: Did, cid: BlobCid)
    returns (s0: State, steps: seq<Step>, s: State, stage0: Stage, since: Index, stage1: Stage)
    requires first != second
    ensures Init(s0) && Path(c, s0, steps) == Some(s) && s.flight == map[DataKey(cid) := 0] && DataKey(cid) !in s.cache
    ensures Working(c, s, 0, stage0, since, Broken(DataFault(NotFound))) && stage0.DataFetch?
    ensures s.reqs.Keys == {0, 1} && s.reqs[0].did == first && s.reqs[0].cid == cid
    ensures s.reqs[1].did == second && s.reqs[1].cid == cid && s.now == s.reqs[1].start
    ensures s.reqs[1].status == Active(stage1, Ask) && stage1.DataFetch?
  {
    hide Path, Alone, Represents, Hits, Held, LiveIn, Changed, Without;
    s0 := State(0, [], map[], map[], map[], map[]);
    var s1 := DoArrive(s0, 1, second, cid);
    OneStep(c, s0, Arrive(1, second, cid));
    OnlyRequest(s1, 1);
    NothingCached();
    var policy1, s2, cs1 := PolicyPart(c, s1, 1, NO_CACHES);
    var s3 := DoArrive(s2, 0, first, cid);
    OneStep(c, s2, Arrive(0, first, cid));
    NoneWaits(s3, 0, 1);
    var policy0, s4, cs2 := PolicyPart(c, s3, 0, cs1);
    stage0, stage1 := s4.reqs[0].status.stage, s4.reqs[1].status.stage;
    var failing;
    failing, s, since := OriginRefuses(c, s4, 0, stage0, cs2);
    var arrive1, arrive0 := [Arrive(1, second, cid)], [Arrive(0, first, cid)];
    steps := arrive1 + policy1 + arrive0 + policy0 + failing;
    PathJoins(c, s0, arrive1, policy1);
    PathJoins(c, s0, arrive1 + policy1, arrive0);
    PathJoins(c, s0, arrive1 + policy1 + arrive0, policy0);
    PathJoins(c, s0, arrive1 + policy1 + arrive0 + policy0, failing);
  }

  lemma NoneWaits(s: State, r: ReqId, w: ReqId)
    requires s.reqs.Keys == {r, w} && s.reqs[w].status.Active? && s.reqs[w].status.point.Ask?
    ensures Alone(s, r)
  {
  }

  /** A data evaluation whose origin says that there is no such blob. */
  lemma OriginRefuses(c: Config, s: State, r: ReqId, stage: Stage, cs: Caches)
    returns (steps: seq<Step>, t: State, since: Index)
    requires At(c, s, r, Active(stage, Ask)) && stage.DataFetch? && s.flight == map[]
    requires Represents(cs, s.cache) && cs.data == map[] && cs.identity == map[]
    ensures Moves(c, s, steps, t, r) && SameCall(s, t, r) && t.flight == map[DataKey(s.reqs[r].cid) := r]
    ensures Working(c, t, r, stage, since, Broken(DataFault(NotFound))) && DataKey(s.reqs[r].cid) !in t.cache
  {
    hide Moves, Alone, Represents, Hits, Held, LiveIn, Changed, Without;
    var did, cid := s.reqs[r].did, s.reqs[r].cid;
    SameHit(c, cs, s, DataKey(cid));
    NotLive(c, cs, cid, s.now);
    var s1, begun := LeadStep(c, s, r);
    since := begun;
    SameDrop(cs, s.cache, cs, DataKey(cid));
    var pds, s2 := SoloPds(c, s1, r, stage, since, cs, Resolved("", Domain));
    GoodPds(c, cs, s.now, did);
    var cs1 := CallPds(c, cs, s.now, did, Resolved("", Domain)).0;
    var job := s2.reqs[r].status.point.job;
    var said;
    t, said := OriginReplyStep(c, s2, r, stage, since, job.url, job.pds, Missing);
    steps := [Lead(r)] + pds + [OriginReply(r, Missing)];
    MovesJoin(c, s, [Lead(r)], s1, pds, s2, r);
    MovesJoin(c, s, [Lead(r)] + pds, s2, [OriginReply(r, Missing)], t, r);
    NoData(cs1, t.cache, cid);
  }

  lemma NoData(cs: Caches, cache: map<Key, Entry>, cid: BlobCid)
    requires Represents(cs, cache) && cs.data == map[]
    ensures DataKey(cid) !in cache
  {
    assert Held(cs, DataKey(cid)) == Kept(cache, DataKey(cid));
  }

  /** Joining the download. */
  lemma Joined(c: Config, s: State, cid: BlobCid, stage: Stage) returns (t: State)
    requires s.flight == map[DataKey(cid) := 0] && DataKey(cid) !in s.cache && s.reqs.Keys == {0, 1}
    requires s.reqs[1].cid == cid && s.now == s.reqs[1].start
    requires s.reqs[1].status == Active(stage, Ask) && stage.DataFetch?
    ensures Path(c, s, [Join(1)]) == Some(t) && t == s.(reqs := s.reqs[1 := s.reqs[1].(status := Active(stage, Wait))])
  {
    OneStep(c, s, Join(1));
    t := DoJoin(c, s, 1);
  }

  /** Its failure, shared. */
  lemma Shared(c: Config, s: State, cid: BlobCid, stage0: Stage, since: Index, stage1: Stage) returns (t: State)
    requires Runs(c, s, 0) && Runs(c, s, 1) && s.reqs[0].cid == cid && s.reqs[1].cid == cid
    requires s.reqs[0].status == Active(stage0, Run(since, Broken(DataFault(NotFound)))) && stage0.DataFetch?
    requires s.reqs[1].status == Active(stage1, Wait) && stage1.DataFetch?
    ensures Path(c, s, [Break(0, {1})]) == Some(t) && 1 in t.reqs
    ensures t.reqs[1] == s.reqs[1].(status := Done(Refused(DownloadFailed(NotFound))))
  {
    assert CanBreak(c, s, 0, {1});
    OneStep(c, s, Break(0, {1}));
    t := DoBreak(c, s, 0, {1});
  }

  /** Two actors, one blob: the first actor's origin says 404, and the second actor's request, which had joined the
      download, is refused with it, although its own origin has not been asked at all. */
  lemma BorrowedNotFound(c: Config, first: Did, second: Did, cid: BlobCid)
    returns (states: seq<State>, steps: seq<Step>)
    requires first != second
    ensures IsRun(c, states, steps) && |states| == |steps| + 1
    ensures var s := states[|steps|];
            && 1 in s.reqs && s.reqs[1].did == second && s.reqs[1].cid == cid
            && s.reqs[1].status == Done(Refused(DownloadFailed(NotFound))) && s.reqs[1].origin == 0
  {
    hide Path, Enabled, Apply, Inv;
    var s0, head, s1, stage0, since, stage1 := FirstActorFails(c, first, second, cid);
    var joined := Joined(c, s1, cid, stage1);
    var s2 := Shared(c, joined, cid, stage0, since, stage1);
    var tail := [Join(1)] + [Break(0, {1})];
    PathJoins(c, s1, [Join(1)], [Break(0, {1})]);
    PathJoins(c, s0, head, tail);
    var before := PathExtendsRun(c, [s0], [], head);
    assert [] + head == head;
    RunInv(c, before, head, |head|);
    NothingSpent(c, s1, 1);
    states := PathExtendsRun(c, before, head, tail);
    steps := head + tail;
  }

  lemma NothingSpent(c: Config, s: State, r: ReqId)
    requires Inv(c, s) && r in s.reqs && s.reqs[r].status.Active?
    requires s.reqs[r].status.stage.DataFetch? && s.reqs[r].status.point.Ask?
    ensures s.reqs[r].origin == 0
  {
    hide LogOk, CacheInv, FlightInv, HistoryInv;
    assert ReqOk(c, s.log, s.now, r, s.reqs[r]);
  }
}
