/** Whole histories of the handlers: any sequence of requests and purges, handled one after another as
    `Services` does it, is a run of the protocol, so the guarantees of runs are guarantees of the handlers. */
module Sessions {
  import opened Wrappers
  import opened BlobCids
  import opened BlobRules
  import opened Protocol
  import opened Guarantees
  import opened Serving
  import opened SoloRuns

  // ---------- a purge alone ----------

  /** The cache once a purge has visited the caches from its `v`-th visit on. */
  function Visited(c: Config, cache: map<Key, Entry>, scope: Scope, v: nat): map<Key, Entry>
    requires v <= |Visits(c, scope)|
  {
    map k | k in cache && !(CacheOf(k) in Visits(c, scope)[v..] && InScope(scope, k)) :: cache[k]
  }

  /** The state differs in its caches, its history and one purge only. */
  ghost predicate OnlyPurged(s: State, t: State, j: JobId) {
    && t.now == s.now && t.reqs == s.reqs && t.flight == s.flight && s.log <= t.log
    && t.purges.Keys == s.purges.Keys + {j}
  }

  lemma {:induction false} VisitsLeft(c: Config, s: State, j: JobId, v: nat) returns (steps: seq<Step>, t: State)
    requires j in s.purges && s.purges[j].visited == v <= |Visits(c, s.purges[j].scope)|
    ensures Path(c, s, steps) == Some(t) && OnlyPurged(s, t, j)
    ensures t.cache == Visited(c, s.cache, s.purges[j].scope, v)
    ensures t.purges[j] == Purge(s.purges[j].scope, |Visits(c, s.purges[j].scope)|)
    ensures NoOrigin(steps)
    ensures forall step :: step in steps ==> step == VisitCache(j)
    decreases |Visits(c, s.purges[j].scope)| - v
  {
    hide Visits, InScope, Path, Enabled, Apply;
    var scope := s.purges[j].scope;
    if v == |Visits(c, scope)| {
      steps, t := [], s;
      EmptyPath(c, s);
    } else {
      var s1 := DoVisit(c, s, j);
      var tail;
      VisitStep(c, s, j);
      tail, t := VisitsLeft(c, s1, j, v + 1);
      steps := [VisitCache(j)] + tail;
      PathJoins(c, s, [VisitCache(j)], tail);
      assert Visits(c, scope)[v..] == [Visits(c, scope)[v]] + Visits(c, scope)[v + 1..];
    }
  }

  lemma EmptyPath(c: Config, s: State)
    ensures Path(c, s, []) == Some(s)
  {
  }

  lemma VisitStep(c: Config, s: State, j: JobId)
    requires CanVisit(c, s, j)
    ensures Path(c, s, [VisitCache(j)]) == Some(DoVisit(c, s, j))
  {
    hide DoVisit, Visits;
    OneStep(c, s, VisitCache(j));
  }

  /** All visits of a purge together do to the caches what the purge handlers do. */
  lemma VisitsArePurge(c: Config, cs: Caches, cache: map<Key, Entry>, scope: Scope)
    requires Represents(cs, cache)
    ensures Represents(AfterPurge(c, cs, scope), Visited(c, cache, scope, 0))
  {
    hide Visits, InScope, AfterPurge, Held;
    forall k
      ensures Held(AfterPurge(c, cs, scope), k) == Kept(Visited(c, cache, scope, 0), k)
    {
      assert Held(cs, k) == Kept(cache, k);
      assert Visits(c, scope)[0..] == Visits(c, scope);
      VisitsReach(c, scope, k);
      PurgeDrops(c, cs, scope, k);
    }
  }

  lemma PurgeDrops(c: Config, cs: Caches, scope: Scope, k: Key)
    ensures Held(AfterPurge(c, cs, scope), k)
            == if InScope(scope, k) && (k.PolicyKey? ==> c.hasPolicy) then None else Held(cs, k)
  {
    hide InScope;
  }

  /** A purge visits every cache that can hold a key in its scope, but for the policy cache when there is none. */
  lemma VisitsReach(c: Config, scope: Scope, k: Key)
    ensures InScope(scope, k) ==> (CacheOf(k) in Visits(c, scope) <==> (k.PolicyKey? ==> c.hasPolicy))
  {
  }

  lemma SoloPurge(c: Config, s: State, j: JobId, scope: Scope, cs: Caches) returns (steps: seq<Step>, t: State)
    requires Represents(cs, s.cache) && j !in s.purges
    ensures Path(c, s, steps) == Some(t) && OnlyPurged(s, t, j)
    ensures t.purges[j] == Purge(scope, |Visits(c, scope)|) && Represents(AfterPurge(c, cs, scope), t.cache)
    ensures NoOrigin(steps)
  {
    hide Represents, AfterPurge, Path, Visited, Visits;
    var s1 := s.(purges := s.purges[j := Purge(scope, 0)]);
    OneStep(c, s, StartPurge(j, scope));
    var tail;
    tail, t := VisitsLeft(c, s1, j, 0);
    steps := [StartPurge(j, scope)] + tail;
    PathJoins(c, s, [StartPurge(j, scope)], tail);
    VisitsArePurge(c, cs, s.cache, scope);
  }

  // ---------- histories ----------

  datatype Call = Get(did: Did, cid: BlobCid, w: World) | PurgeOf(scope: Scope) | Pause

  datatype Exchange = Exchange(did: Did, cid: BlobCid, outcome: Outcome)

  /** The server between two calls: its caches, its clock, what it has answered and how often it was purged. */
  datatype Desk = Desk(caches: Caches, now: Time, answered: seq<Exchange>, purges: nat)

  function Handle(c: Config, d: Desk, call: Call): Desk {
    match call
    case Get(did, cid, w) =>
      var (caches, o) := Serve(c, d.caches, d.now, did, cid, w);
      d.(caches := caches, answered := d.answered + [Exchange(did, cid, o)])
    case PurgeOf(scope) => d.(caches := AfterPurge(c, d.caches, scope), purges := d.purges + 1)
    case Pause => d.(now := d.now + 1)
  }

  function Session(c: Config, start: Time, calls: seq<Call>): Desk {
    if calls == [] then Desk(NO_CACHES, start, [], 0)
    else Handle(c, Session(c, start, calls[..|calls| - 1]), calls[|calls| - 1])
  }

  /** The machine has seen the same: the `i`-th request is the `i`-th answer. */
  ghost predicate Mirrors(s: State, d: Desk) {
    && Represents(d.caches, s.cache) && s.now == d.now && s.flight == map[]
    && (forall r: ReqId :: r in s.reqs <==> r < |d.answered|)
    && (forall r :: r in s.reqs ==>
          && s.reqs[r].did == d.answered[r].did && s.reqs[r].cid == d.answered[r].cid
          && Ended(s.reqs[r].status, d.answered[r].outcome))
    && (forall j :: j in s.purges ==> j < d.purges)
  }

  lemma GetIsAPath(c: Config, s: State, d: Desk, did: Did, cid: BlobCid, w: World) returns (steps: seq<Step>, t: State)
    requires Mirrors(s, d)
    ensures Path(c, s, steps) == Some(t) && Mirrors(t, Handle(c, d, Get(did, cid, w)))
  {
    hide Represents, Serve, Path;
    var r := |d.answered|;
    var s1 := DoArrive(s, r, did, cid);
    OneStep(c, s, Arrive(r, did, cid));
    var tail;
    tail, t := SoloServe(c, s1, r, d.caches, w);
    steps := [Arrive(r, did, cid)] + tail;
    PathJoins(c, s, [Arrive(r, did, cid)], tail);
  }

  lemma CallIsAPath(c: Config, s: State, d: Desk, call: Call) returns (steps: seq<Step>, t: State)
    requires Mirrors(s, d)
    ensures Path(c, s, steps) == Some(t) && Mirrors(t, Handle(c, d, call))
  {
    hide Represents, Path, AfterPurge, Ended, Serve;
    match call
    case Get(did, cid, w) => steps, t := GetIsAPath(c, s, d, did, cid, w);
    case PurgeOf(scope) => steps, t := SoloPurge(c, s, d.purges, scope, d.caches);
    case Pause =>
      steps, t := [Tick], s.(now := s.now + 1);
      OneStep(c, s, Tick);
  }

  /** Any history of undisturbed handlers, from empty caches, is a run of the protocol. */
  lemma {:induction false} SessionIsARun(c: Config, start: Time, calls: seq<Call>)
    returns (states: seq<State>, steps: seq<Step>)
    ensures IsRun(c, states, steps) && |states| == |steps| + 1
    ensures Mirrors(states[|steps|], Session(c, start, calls))
  {
    hide Path, Enabled, Apply, Handle;
    if calls == [] {
      states, steps := [State(start, [], map[], map[], map[], map[])], [];
    } else {
      var n := |calls| - 1;
      var before, done := SessionIsARun(c, start, calls[..n]);
      var more, t := CallIsAPath(c, before[|done|], Session(c, start, calls[..n]), calls[n]);
      states := PathExtendsRun(c, before, done, more);
      steps := done + more;
    }
  }

  /** So whatever a history of the handlers grants under a CID is genuine, and the same every time. */
  lemma SessionGrants(c: Config, start: Time, calls: seq<Call>, i: nat, j: nat)
    requires var d := Session(c, start, calls);
             i < |d.answered| && j < |d.answered| && d.answered[i].cid == d.answered[j].cid
             && d.answered[i].outcome.Granted? && d.answered[j].outcome.Granted?
    ensures var a, b := Session(c, start, calls).answered[i], Session(c, start, calls).answered[j];
            && Genuine(c.rules, a.cid, a.outcome.blob)
            && (a.outcome.blob == b.outcome.blob || Collide(c.rules, a.outcome.blob.bytes, b.outcome.blob.bytes))
  {
    hide IsRun, Represents, Session, Genuine, PolicyJustified, OwnershipJustified;
    var states, steps := SessionIsARun(c, start, calls);
    ServingSafety(c, states, steps, |steps|, i);
    OneContentPerCid(c, states, steps, |steps|, i, |steps|, j);
  }
}
