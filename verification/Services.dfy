/** The services and the request handlers as the source writes them: objects whose methods update their caches
    step by step, with early returns. Each method is proved against its function in `Serving`. A method runs
    undisturbed here; how runs interleave is the subject of `Protocol`, and `SoloRuns` joins the two. */
module Services {
  import opened Wrappers
  import opened BlobCids
  import opened BlobRules
  import opened Mimes
  import BodyStreams
  import opened Protocol
  import opened Serving

  class PolicyClient {
    const ttl: nat
    var cache: map<(Did, BlobCid), Slot<Decision>>

    constructor (ttl: nat)
      ensures this.ttl == ttl && cache == map[]
    {
      this.ttl := ttl;
      cache := map[];
    }

    method GetPolicy(did: Did, cid: BlobCid, now: Time, answer: PolicyAnswer) returns (r: Result<Decision, PolicyError>)
      modifies this
      ensures (cache, r) == Cached(ttl, old(cache), now, (did, cid), DecisionOf(answer))
    {
      var k := (did, cid);
      if k in cache && now < cache[k].at + ttl {
        cache := cache[k := cache[k].(used := now)];
        return Success(cache[k].value);
      }
      cache := cache - {k};
      match answer {
        case Unanswered => return Failure(HttpClient);
        case BadStatus(code) => return Failure(StatusCode(code));
        case BodyLost => return Failure(HttpClient);
        case Undecodable => return Failure(Deserialize);
        case Output(output) =>
          var decision := FromServiceOutput(output);
          cache := cache[k := Slot(decision, now, now)];
          assert cache == old(cache)[k := Slot(decision, now, now)];
          return Success(decision);
      }
    }

    method InvalidateIf(drop: ((Did, BlobCid)) -> bool)
      modifies this
      ensures cache == map k | k in old(cache) && !drop(k) :: old(cache)[k]
    {
      cache := map k | k in cache && !drop(k) :: cache[k];
    }

    method InvalidateAll()
      modifies this
      ensures cache == map[]
    {
      cache := map[];
    }
  }

  class IdentityService {
    const ttl: nat
    var cache: map<Did, Slot<Url>>

    constructor (ttl: nat)
      ensures this.ttl == ttl && cache == map[]
    {
      this.ttl := ttl;
      cache := map[];
    }

    method PdsForDid(did: Did, now: Time, answer: PdsAnswer) returns (r: Result<Url, IdentityError>)
      modifies this
      ensures (cache, r) == Cached(ttl, old(cache), now, did, EndpointOf(answer))
    {
      if did in cache && now < cache[did].at + ttl {
        cache := cache[did := cache[did].(used := now)];
        return Success(cache[did].value);
      }
      cache := cache - {did};
      if answer.Unresolved? {
        return Failure(ResolverError);
      }
      if answer.NotAUrl? {
        return Failure(InvalidDoc);
      }
      match answer.host {
        case Domain =>
          cache := cache[did := Slot(answer.url, now, now)];
          assert cache == old(cache)[did := Slot(answer.url, now, now)];
          return Success(answer.url);
        case _ =>
          return Failure(InvalidDoc);
      }
    }

    method Invalidate(did: Did)
      modifies this
      ensures cache == old(cache) - {did}
    {
      cache := cache - {did};
    }

    method InvalidateAll()
      modifies this
      ensures cache == map[]
    {
      cache := map[];
    }
  }

  class BlobService {
    const rules: Rules
    const dataTti: nat
    const ownershipTtl: nat
    var dataCache: map<BlobCid, Slot<Blob>>
    var ownershipCache: map<(BlobCid, Did), Slot<()>>

    constructor (rules: Rules, dataTti: nat, ownershipTtl: nat)
      ensures this.rules == rules && this.dataTti == dataTti && this.ownershipTtl == ownershipTtl
      ensures dataCache == map[] && ownershipCache == map[]
    {
      this.rules := rules;
      this.dataTti := dataTti;
      this.ownershipTtl := ownershipTtl;
      dataCache := map[];
      ownershipCache := map[];
    }

    /** The settings and caches a blob call works on, completed by those it has nothing to do with. */
    ghost predicate Fits(c: Config, identity: IdentityService) {
      c.rules == rules && c.dataTti == dataTti && c.ownershipTtl == ownershipTtl && c.identityTtl == identity.ttl
    }

    ghost function Beside(policy: map<(Did, BlobCid), Slot<Decision>>, identity: IdentityService): Caches
      reads this, identity
    {
      Caches(policy, identity.cache, dataCache, ownershipCache)
    }

    method FetchBlob(did: Did, cid: BlobCid, identity: IdentityService, now: Time, w: World) returns (r: Download)
      modifies this, identity
      ensures forall c, policy :: Fits(c, identity) ==>
                (Beside(policy, identity), r) == CallData(c, old(Beside(policy, identity)), now, did, cid, w)
    {
      if cid in dataCache && now < dataCache[cid].used + dataTti {
        dataCache := dataCache[cid := dataCache[cid].(used := now)];
        return Downloading(dataCache[cid].value);
      }
      dataCache := dataCache - {cid};
      var url := identity.PdsForDid(did, now, w.dataPds);
      if url.Failure? {
        return Failed(ResolutionFailure);
      }
      match w.dataOrigin {
        case Unreachable => return Failed(FetchFailure);
        case Missing => return Failed(NotFound);
        case OtherStatus => return Failed(ErrorStatusCode);
        case Ok =>
      }
      var body := BodyStreams.BytesStreamCapped(w.sizeHint, w.lengthHeader, w.chunks, rules.maxSize);
      if body.Failure? {
        match body.error {
          case TooLarge => return Failed(TooLarge);
          case ClientError => return Failed(StreamFailed);
          case OutOfCapacity => return Crashed;
        }
      }
      match CheckCid(rules.hash, cid, body.value) {
        case CidUnsupportedMultihash => return Failed(DownloadError.CidUnsupportedMultihash);
        case CidMismatch => return Failed(DownloadError.CidMismatch);
        case CidMatches =>
      }
      var mime := SniffMime(rules.infer, body.value);
      var allowed := IsMimeAllowed(mime, rules.allowed);
      if !allowed {
        return Failed(ForbiddenMimeType);
      }
      ownershipCache := ownershipCache[(cid, did) := Slot((), now, now)];
      var blob := Blob(body.value, mime);
      dataCache := dataCache[cid := Slot(blob, now, now)];
      return Downloading(blob);
    }

    method FetchBlobOwnership(did: Did, cid: BlobCid, identity: IdentityService, now: Time, w: World)
      returns (r: Result<(), OwnershipError>)
      modifies this`ownershipCache, identity
      ensures forall c, policy :: Fits(c, identity) ==>
                (Beside(policy, identity), r) == CallOwner(c, old(Beside(policy, identity)), now, did, cid, w)
    {
      var k := (cid, did);
      if k in ownershipCache && now < ownershipCache[k].at + ownershipTtl {
        ownershipCache := ownershipCache[k := ownershipCache[k].(used := now)];
        return Success(());
      }
      ownershipCache := ownershipCache - {k};
      var url := identity.PdsForDid(did, now, w.ownerPds);
      if url.Failure? {
        return Failure(OwnerResolutionFailure);
      }
      match w.ownerOrigin {
        case Unreachable => return Failure(OwnerFetchFailure);
        case Missing => return Failure(OwnerNotFound);
        case OtherStatus => return Failure(OwnerErrorStatusCode);
        case Ok =>
      }
      ownershipCache := ownershipCache[k := Slot((), now, now)];
      return Success(());
    }

    method InvalidateDataEntry(cid: BlobCid)
      modifies this`dataCache
      ensures dataCache == old(dataCache) - {cid}
    {
      dataCache := dataCache - {cid};
    }

    method InvalidateOwnershipIf(drop: ((BlobCid, Did)) -> bool)
      modifies this`ownershipCache
      ensures ownershipCache == map k | k in old(ownershipCache) && !drop(k) :: old(ownershipCache)[k]
    {
      ownershipCache := map k | k in ownershipCache && !drop(k) :: ownershipCache[k];
    }

    method InvalidateDataAll()
      modifies this`dataCache
      ensures dataCache == map[]
    {
      dataCache := map[];
    }

    method InvalidateOwnershipAll()
      modifies this`ownershipCache
      ensures ownershipCache == map[]
    {
      ownershipCache := map[];
    }
  }

  class ServerState {
    const policyClient: PolicyClient?
    const policyFailOpen: bool
    const processingTimeout: nat
    const identity: IdentityService
    const blobs: BlobService

    constructor (policyClient: PolicyClient?, policyFailOpen: bool, processingTimeout: nat,
                 identity: IdentityService, blobs: BlobService)
      ensures this.policyClient == policyClient && this.policyFailOpen == policyFailOpen
      ensures this.processingTimeout == processingTimeout
      ensures this.identity == identity && this.blobs == blobs
    {
      this.policyClient := policyClient;
      this.policyFailOpen := policyFailOpen;
      this.processingTimeout := processingTimeout;
      this.identity := identity;
      this.blobs := blobs;
    }

    ghost function Settings(): Config {
      Config(blobs.rules, policyClient != null, policyFailOpen, if policyClient == null then 0 else policyClient.ttl,
             identity.ttl, blobs.ownershipTtl, blobs.dataTti, processingTimeout)
    }

    ghost function Snapshot(): Caches
      reads identity, blobs, policyClient
    {
      blobs.Beside(if policyClient == null then map[] else policyClient.cache, identity)
    }

    method GetBlob(did: Option<Did>, rawCid: Option<Cid>, now: Time, w: World) returns (r: BlobResponse)
      modifies policyClient, identity, blobs
      ensures (Snapshot(), r) == ExchangeBlob(Settings(), old(Snapshot()), now, did, rawCid, w)
    {
      hide CallData, CallOwner, Cached, DecisionOf;
      if did.None? {
        return BlobError(422, MalformedDid);
      }
      if rawCid.None? {
        return BlobError(422, MalformedCid);
      }
      var parsed := TryFromCid(rawCid.value);
      if parsed.Failure? {
        return BlobError(422, MalformedCid);
      }
      var cid := parsed.value;
      if policyClient != null {
        var decision := policyClient.GetPolicy(did.value, cid, now, w.policy);
        match decision {
          case Success(Allowed) =>
          case Success(Forbidden) => return BlobError(410, PolicyForbidden);
          case Failure(_) =>
            if !policyFailOpen {
              return BlobError(500, InternalServerError);
            }
        }
      }
      ghost var policy := Snapshot().policy;
      var download := blobs.FetchBlob(did.value, cid, identity, now, w);
      assert blobs.Fits(Settings(), identity) && Snapshot() == blobs.Beside(policy, identity);
      if download == Crashed {
        return BlobCrash;
      }
      if download.Failed? {
        match download.error {
          case CidUnsupportedMultihash => return BlobError(400, CidUnsupported);
          case ForbiddenMimeType => return BlobError(403, BlobForbiddenType);
          case TooLarge => return BlobError(413, BlobTooLarge);
          case ResolutionFailure => return BlobError(424, CannotResolve);
          case NotFound => return BlobError(404, BlobNotFound);
          case CidMismatch => return BlobError(502, BlobCidMismatch);
          case _ => return BlobError(502, BlobFetchFailed);
        }
      }
      var owned := blobs.FetchBlobOwnership(did.value, cid, identity, now, w);
      if owned.Failure? {
        match owned.error {
          case OwnerResolutionFailure => return BlobError(424, CannotResolve);
          case OwnerNotFound => return BlobError(404, BlobNotFound);
          case _ => return BlobError(502, CannotResolve);
        }
      }
      return BlobBody(download.blob.bytes, download.blob.mime);
    }

    method GetBlobMetadata(did: Did, rawCid: Option<Cid>, now: Time, w: World) returns (r: MetadataResponse)
      modifies policyClient, identity, blobs
      ensures (Snapshot(), r) == ExchangeMetadata(Settings(), old(Snapshot()), now, did, rawCid, w)
    {
      hide CallData, CallOwner, Cached, DecisionOf;
      if rawCid.None? {
        return MetadataError(422, MetaMalformedCid);
      }
      var parsed := TryFromCid(rawCid.value);
      if parsed.Failure? {
        return MetadataError(422, MetaMalformedCid);
      }
      var cid := parsed.value;
      if policyClient != null {
        var decision := policyClient.GetPolicy(did, cid, now, w.policy);
        match decision {
          case Success(Allowed) =>
          case Success(Forbidden) => return MetadataError(410, MetaPolicyForbidden);
          case Failure(_) =>
            if !policyFailOpen {
              return MetadataError(500, MetaInternalServerError);
            }
        }
      }
      ghost var policy := Snapshot().policy;
      var download := blobs.FetchBlob(did, cid, identity, now, w);
      assert blobs.Fits(Settings(), identity) && Snapshot() == blobs.Beside(policy, identity);
      if download == Crashed {
        return MetadataCrash;
      }
      if download.Failed? {
        match download.error {
          case CidUnsupportedMultihash => return MetadataError(400, MetaCidUnsupported);
          case ForbiddenMimeType => return MetadataError(403, MetaBlobForbiddenType);
          case TooLarge => return MetadataError(413, MetaBlobTooLarge);
          case ResolutionFailure => return MetadataError(424, MetaCannotResolve);
          case NotFound => return MetadataError(404, MetaBlobNotFound);
          case CidMismatch => return MetadataError(502, MetaBlobCidMismatch);
          case _ => return MetadataError(502, MetaBlobFetchFailed);
        }
      }
      var owned := blobs.FetchBlobOwnership(did, cid, identity, now, w);
      if owned.Failure? {
        match owned.error {
          case OwnerResolutionFailure => return MetadataError(424, MetaCannotResolve);
          case OwnerNotFound => return MetadataError(404, MetaBlobNotFound);
          case _ => return MetadataError(502, MetaCannotResolve);
        }
      }
      return Metadata(AsI64(|download.blob.bytes|), download.blob.mime);
    }

    method PurgeActor(did: Did) returns (status: nat)
      modifies policyClient, identity, blobs
      ensures status == 200 && Snapshot() == AfterPurge(Settings(), old(Snapshot()), OfActor(did))
    {
      if policyClient != null {
        policyClient.InvalidateIf((k: (Did, BlobCid)) => k.0 == did);
        assert policyClient.cache == PolicyKept(old(policyClient.cache), OfActor(did));
      }
      identity.Invalidate(did);
      assert identity.cache == IdentityKept(old(identity.cache), OfActor(did));
      blobs.InvalidateOwnershipIf((k: (BlobCid, Did)) => k.1 == did);
      assert blobs.ownershipCache == OwnershipKept(old(blobs.ownershipCache), OfActor(did));
      assert blobs.dataCache == DataKept(old(blobs.dataCache), OfActor(did));
      return 200;
    }

    method PurgeBlob(rawCid: Option<Cid>) returns (status: nat)
      modifies policyClient, identity, blobs
      ensures ParsedCid(rawCid).None? ==> status == 422 && Snapshot() == old(Snapshot())
      ensures ParsedCid(rawCid).Some? ==>
                status == 200 && Snapshot() == AfterPurge(Settings(), old(Snapshot()), OfBlob(ParsedCid(rawCid).value))
    {
      if rawCid.None? {
        return 422;
      }
      var parsed := TryFromCid(rawCid.value);
      if parsed.Failure? {
        return 422;
      }
      var cid := parsed.value;
      if policyClient != null {
        policyClient.InvalidateIf((k: (Did, BlobCid)) => k.1 == cid);
        assert policyClient.cache == PolicyKept(old(policyClient.cache), OfBlob(cid));
      }
      blobs.InvalidateDataEntry(cid);
      assert blobs.dataCache == DataKept(old(blobs.dataCache), OfBlob(cid));
      blobs.InvalidateOwnershipIf((k: (BlobCid, Did)) => k.0 == cid);
      assert blobs.ownershipCache == OwnershipKept(old(blobs.ownershipCache), OfBlob(cid));
      assert identity.cache == IdentityKept(old(identity.cache), OfBlob(cid));
      return 200;
    }

    method PurgeAll() returns (status: nat)
      modifies policyClient, identity, blobs
      ensures status == 200 && Snapshot() == AfterPurge(Settings(), old(Snapshot()), OfAll)
    {
      if policyClient != null {
        policyClient.InvalidateAll();
      }
      identity.InvalidateAll();
      blobs.InvalidateDataAll();
      blobs.InvalidateOwnershipAll();
      return 200;
    }
  }
}
