/** What one undisturbed handler promises: when a cold one serves, what a repeat does, and what a failed
    policy query leaves behind. */
module Promises {
  import opened Wrappers
  import opened BlobCids
  import opened BlobRules
  import BodyStreams
  import opened Protocol
  import opened Serving

  // ---------- from empty caches ----------

  /** The policy service lets the request pass. */
  predicate PolicyPasses(c: Config, answer: PolicyAnswer) {
    c.hasPolicy ==> answer == Output(AllowedOutput) || (c.failOpen && !answer.Output?)
  }

  /** The body can be downloaded: nothing in it fails, and neither the announced nor the real size exceeds the
      cap or a buffer. */
  predicate Downloadable(c: Config, w: World) {
    var limit := BodyStreams.Limit(c.rules.maxSize);
    && (Declared(w).Some? ==> Declared(w).value <= limit)
    && BodyStreams.AllData(w.chunks) && |BodyStreams.Body(w.chunks)| <= limit
  }

  lemma ObtainIff(c: Config, cid: BlobCid, w: World, blob: Blob)
    ensures Obtain(c, cid, w) == Downloading(blob) <==>
            && w.dataOrigin == Ok && Downloadable(c, w)
            && blob.bytes == BodyStreams.Body(w.chunks) && Genuine(c.rules, cid, blob)
  {
    hide BodyStreams.Capped, BodyStreams.Body, Accept, Genuine;
    var capped := BodyStreams.Capped(Declared(w), w.chunks, c.rules.maxSize);
    if Downloadable(c, w) {
      BodyStreams.CappedIff(Declared(w), w.chunks, c.rules.maxSize, BodyStreams.Body(w.chunks));
    }
    if capped.Success? {
      BodyStreams.CappedIff(Declared(w), w.chunks, c.rules.maxSize, capped.value);
      AcceptIff(c.rules, cid, capped.value, blob);
    }
  }

  /** From empty caches a blob is served exactly when the policy lets it pass, the actor resolves to a domain,
      that origin answers success, and the body it sends is downloadable and genuine. The evaluation has then
      noted the ownership, and only a time to live of zero would have it asked for again. */
  lemma ColdServeIff(c: Config, now: Time, did: Did, cid: BlobCid, w: World, blob: Blob)
    ensures Serve(c, NO_CACHES, now, did, cid, w).1 == Granted(blob) <==>
            && PolicyPasses(c, w.policy)
            && w.dataPds.Resolved? && w.dataPds.host == Domain
            && w.dataOrigin == Ok && Downloadable(c, w)
            && blob.bytes == BodyStreams.Body(w.chunks) && Genuine(c.rules, cid, blob)
            && (|| c.ownershipTtl > 0
                || (w.ownerOrigin == Ok && (c.identityTtl > 0 || EndpointOf(w.ownerPds).Success?)))
  {
    hide Obtain, Downloadable, Genuine, BodyStreams.Body;
    ObtainIff(c, cid, w, blob);
  }

  // ---------- repeats ----------

  lemma TouchedAlready<K, V>(m: map<K, Slot<V>>, k: K, now: Time)
    requires k in m && m[k].used == now
    ensures Touched(m, k, now) == m
  {
    assert m[k].(used := now) == m[k];
  }

  lemma PolicyStays(c: Config, cs: Caches, now: Time, did: Did, cid: BlobCid, a: PolicyAnswer,
                    after: Caches, b: PolicyAnswer)
    requires c.policyTtl > 0 && CallPolicy(c, cs, now, did, cid, a).1.Success?
    requires after.policy == CallPolicy(c, cs, now, did, cid, a).0.policy
    ensures CallPolicy(c, after, now, did, cid, b) == (after, CallPolicy(c, cs, now, did, cid, a).1)
  {
    hide DecisionOf;
    TouchedAlready(after.policy, (did, cid), now);
  }

  lemma DataStays(c: Config, cs: Caches, now: Time, did: Did, cid: BlobCid, w: World, after: Caches, later: World)
    requires c.dataTti > 0 && CallData(c, cs, now, did, cid, w).1.Downloading?
    requires after.data == CallData(c, cs, now, did, cid, w).0.data
    ensures CallData(c, after, now, did, cid, later) == (after, CallData(c, cs, now, did, cid, w).1)
  {
    hide Obtain, CallPds;
    TouchedAlready(after.data, cid, now);
  }

  lemma OwnerStays(c: Config, cs: Caches, now: Time, did: Did, cid: BlobCid, w: World, after: Caches, later: World)
    requires c.ownershipTtl > 0 && CallOwner(c, cs, now, did, cid, w).1.Success?
    requires after.ownership == CallOwner(c, cs, now, did, cid, w).0.ownership
    ensures CallOwner(c, after, now, did, cid, later) == (after, Success(()))
  {
    hide CallPds;
    TouchedAlready(after.ownership, (cid, did), now);
  }

  /** A blob call leaves the policy decisions alone, and an ownership call the blob data, too. */
  lemma CallFrames(c: Config, cs: Caches, now: Time, did: Did, cid: BlobCid, w: World)
    ensures CallData(c, cs, now, did, cid, w).0.policy == cs.policy
    ensures var (cs1, _) := CallOwner(c, cs, now, did, cid, w); cs1.policy == cs.policy && cs1.data == cs.data
  {
    hide Obtain, EndpointOf;
  }

  /** A served request repeated at once is served the same from the caches, which it leaves as they are,
      whatever the outside would answer by then; unless it had passed on a failed policy query. */
  lemma RepeatIsServed(c: Config, cs: Caches, now: Time, did: Did, cid: BlobCid, w: World, later: World)
    requires c.policyTtl > 0 && c.dataTti > 0 && c.ownershipTtl > 0
    requires Serve(c, cs, now, did, cid, w).1.Granted?
    requires c.hasPolicy ==> CallPolicy(c, cs, now, did, cid, w.policy).1.Success?
    ensures var first := Serve(c, cs, now, did, cid, w); Serve(c, first.0, now, did, cid, later) == first
  {
    hide CallPolicy, CallData, CallOwner;
    var cs1 := if c.hasPolicy then CallPolicy(c, cs, now, did, cid, w.policy).0 else cs;
    var cs2 := CallData(c, cs1, now, did, cid, w).0;
    var cs3 := CallOwner(c, cs2, now, did, cid, w).0;
    CallFrames(c, cs1, now, did, cid, w);
    CallFrames(c, cs2, now, did, cid, w);
    if c.hasPolicy {
      PolicyStays(c, cs, now, did, cid, w.policy, cs3, later.policy);
    }
    DataStays(c, cs1, now, did, cid, w, cs3, later);
    OwnerStays(c, cs2, now, did, cid, w, cs3, later);
  }

  /** A request that passed, or failed, on a failed policy query leaves no decision behind: the next one for
      the same pair gets whatever the policy service answers it. */
  lemma FailOpenAsksAgain(c: Config, cs: Caches, now: Time, did: Did, cid: BlobCid, w: World,
                          next: Time, answer: PolicyAnswer)
    requires c.hasPolicy && CallPolicy(c, cs, now, did, cid, w.policy).1.Failure?
    ensures CallPolicy(c, Serve(c, cs, now, did, cid, w).0, next, did, cid, answer).1 == DecisionOf(answer)
  {
    hide CallData, CallOwner, DecisionOf;
    var cs1 := CallPolicy(c, cs, now, did, cid, w.policy).0;
    CallFrames(c, cs1, now, did, cid, w);
    CallFrames(c, CallData(c, cs1, now, did, cid, w).0, now, did, cid, w);
    assert (did, cid) !in cs1.policy;
  }

  // ---------- a dead error ----------

  lemma ObtainIsSupported(c: Config, cid: BlobCid, w: World)
    ensures Obtain(c, cid, w) != Download.Failed(DownloadError.CidUnsupportedMultihash)
  {
    hide Accept, BodyStreams.Capped;
    if Downloaded(c.rules, Declared(w), w.chunks).Success? {
      AcceptIsSupported(c.rules, cid, Downloaded(c.rules, Declared(w), w.chunks).value);
    }
  }

  /** Neither endpoint ever answers that a multihash is unsupported. */
  lemma NeverAnswersUnsupported(c: Config, cs: Caches, now: Time, did: Did, cid: Option<Cid>, w: World)
    ensures var blob := ExchangeBlob(c, cs, now, Some(did), cid, w).1;
            blob.BlobError? ==> blob.status != 400 && blob.error != CidUnsupported
    ensures var meta := ExchangeMetadata(c, cs, now, did, cid, w).1;
            meta.MetadataError? ==> meta.status != 400 && meta.error != MetaCidUnsupported
  {
    hide Obtain, CallPds, CallPolicy, CallOwner;
    if ParsedCid(cid).Some? {
      ObtainIsSupported(c, ParsedCid(cid).value, w);
    }
  }

  // ---------- a world in which everything goes well ----------

  /** The policy allows, the actor resolves and its origin sends the blob. */
  function GoodWorld(blob: Blob): World {
    World(Output(AllowedOutput), Resolved("", Domain), Ok, None, None, [BodyStreams.Data(blob.bytes)],
          Resolved("", Domain), Ok)
  }

  lemma GoodDownload(c: Config, cid: BlobCid, blob: Blob)
    requires Genuine(c.rules, cid, blob)
    ensures var w := GoodWorld(blob);
            && !Panics(c.rules, Declared(w), w.chunks)
            && Downloaded(c.rules, Declared(w), w.chunks) == Success(blob.bytes)
            && Accept(c.rules, cid, blob.bytes) == Success(blob)
            && Obtain(c, cid, w) == Downloading(blob)
  {
    hide Genuine, Accept, BodyStreams.Capped;
    var chunks := [BodyStreams.Data(blob.bytes)];
    assert BodyStreams.Body(chunks) == blob.bytes + BodyStreams.Body([]) == blob.bytes;
    GenuineFits(c.rules, cid, blob);
    BodyStreams.CappedIff(None, chunks, c.rules.maxSize, blob.bytes);
    AcceptIff(c.rules, cid, blob.bytes, blob);
  }

  lemma GenuineFits(rules: Rules, cid: BlobCid, blob: Blob)
    requires Genuine(rules, cid, blob)
    ensures |blob.bytes| <= rules.maxSize
  {
  }

  /** Bytes that come through but do not have the digest are a mismatch. */
  lemma OtherDownload(c: Config, cid: BlobCid, other: Blob)
    requires |other.bytes| <= c.rules.maxSize && c.rules.hash(Sha2_256, other.bytes) != cid.hash.digest
    ensures Obtain(c, cid, GoodWorld(other)) == Download.Failed(DownloadError.CidMismatch)
  {
    hide Accept, BodyStreams.Capped;
    var chunks := [BodyStreams.Data(other.bytes)];
    assert BodyStreams.Body(chunks) == other.bytes + BodyStreams.Body([]) == other.bytes;
    BodyStreams.CappedIff(None, chunks, c.rules.maxSize, other.bytes);
    AcceptIff(c.rules, cid, other.bytes, other);
  }
}
