/** What one handler does when no other request runs, as functions of the four caches, the clock and the
    answers the outside world would give. */
module Serving {
  import opened Wrappers
  import opened BlobCids
  import opened BlobRules
  import BodyStreams
  import Mimes
  import opened Protocol

  /** A cache entry as a service holds it. */
  datatype Slot<+V> = Slot(value: V, at: Time, used: Time)

  datatype Caches = Caches(
    policy: map<(Did, BlobCid), Slot<Decision>>,
    identity: map<Did, Slot<Url>>,
    data: map<BlobCid, Slot<Blob>>,
    ownership: map<(BlobCid, Did), Slot<()>>)

  const NO_CACHES: Caches := Caches(map[], map[], map[], map[])

  /** The policy service's output, and the ways a query of it can end. */
  datatype PolicyOutput = AllowedOutput | ForbiddenOutput
  datatype PolicyAnswer = Unanswered | BadStatus(code: nat) | BodyLost | Undecodable | Output(output: PolicyOutput)
  datatype PolicyError = HttpClient | StatusCode(code: nat) | Deserialize

  function FromServiceOutput(output: PolicyOutput): Decision {
    match output
    case AllowedOutput => Allowed
    case ForbiddenOutput => Forbidden
  }

  function DecisionOf(answer: PolicyAnswer): Result<Decision, PolicyError> {
    match answer
    case Unanswered => Failure(HttpClient)
    case BadStatus(code) => Failure(StatusCode(code))
    case BodyLost => Failure(HttpClient)
    case Undecodable => Failure(Deserialize)
    case Output(output) => Success(FromServiceOutput(output))
  }

  /** How the resolution of an actor's document can end. Only domain names are acceptable hosts. */
  datatype Host = Domain | IpAddress | NoHost
  datatype PdsAnswer = Unresolved | NotAUrl | Resolved(url: Url, host: Host)
  datatype IdentityError = ResolverError | InvalidDoc

  function EndpointOf(answer: PdsAnswer): Result<Url, IdentityError> {
    match answer
    case Unresolved => Failure(ResolverError)
    case NotAUrl => Failure(InvalidDoc)
    case Resolved(url, host) => if host == Domain then Success(url) else Failure(InvalidDoc)
  }

  /** What the outside would answer to the queries a request may make. */
  datatype World = World(
    policy: PolicyAnswer,
    dataPds: PdsAnswer,
    dataOrigin: OriginAnswer,
    sizeHint: Option<BodyStreams.U64>,
    lengthHeader: Option<BodyStreams.U64>,
    chunks: seq<BodyStreams.Chunk>,
    ownerPds: PdsAnswer,
    ownerOrigin: OriginAnswer)

  /** The end of a handler, before it is put into a response. */
  datatype Outcome = Granted(blob: Blob) | Denied(refusal: Refusal)

  function Declared(w: World): Option<BodyStreams.U64> {
    BodyStreams.DeclaredSize(w.sizeHint, w.lengthHeader)
  }

  function Touched<K, V>(m: map<K, Slot<V>>, k: K, now: Time): map<K, Slot<V>>
    requires k in m
  {
    m[k := m[k].(used := now)]
  }

  /** An entry younger than its time to live. */
  predicate Fresh<K, V>(m: map<K, Slot<V>>, k: K, now: Time, ttl: nat) {
    k in m && now < m[k].at + ttl
  }

  /** A get-or-compute call on one cache with a time to live: a fresh entry is returned and touched; otherwise
      the computed value is stored, or an expired entry is gone and the error returned. */
  function Cached<K, V, E>(ttl: nat, m: map<K, Slot<V>>, now: Time, k: K, computed: Result<V, E>)
    : (map<K, Slot<V>>, Result<V, E>)
  {
    if Fresh(m, k, now, ttl) then (Touched(m, k, now), Success(m[k].value))
    else if computed.Success? then (m[k := Slot(computed.value, now, now)], computed)
    else (m - {k}, computed)
  }

  function CallPolicy(c: Config, cs: Caches, now: Time, did: Did, cid: BlobCid, answer: PolicyAnswer)
    : (Caches, Result<Decision, PolicyError>)
  {
    var (m, r) := Cached(c.policyTtl, cs.policy, now, (did, cid), DecisionOf(answer));
    (cs.(policy := m), r)
  }

  function CallPds(c: Config, cs: Caches, now: Time, did: Did, answer: PdsAnswer)
    : (Caches, Result<Url, IdentityError>)
  {
    var (m, r) := Cached(c.identityTtl, cs.identity, now, did, EndpointOf(answer));
    (cs.(identity := m), r)
  }

  /** The end of a download. Only the download can bring the handler down: see `Panics`. */
  datatype Download = Downloading(blob: Blob) | Failed(error: DownloadError) | Crashed

  /** The body of a data evaluation once the endpoint is known. */
  function Obtain(c: Config, cid: BlobCid, w: World): Download {
    if w.dataOrigin != Ok then Failed(DownloadErrorOf(w.dataOrigin))
    else if Panics(c.rules, Declared(w), w.chunks) then Crashed
    else
      match Downloaded(c.rules, Declared(w), w.chunks)
      case Failure(e) => Failed(e)
      case Success(bytes) =>
        match Accept(c.rules, cid, bytes)
        case Failure(e) => Failed(e)
        case Success(blob) => Downloading(blob)
  }

  /** A data evaluation: it notes the actor's ownership before the data is stored. */
  function EvaluateData(c: Config, cs: Caches, now: Time, did: Did, cid: BlobCid, w: World): (Caches, Download) {
    var (cs1, url) := CallPds(c, cs, now, did, w.dataPds);
    if url.Failure? then (cs1, Failed(ResolutionFailure))
    else
      var download := Obtain(c, cid, w);
      if !download.Downloading? then (cs1, download)
      else
        (cs1.(ownership := cs1.ownership[(cid, did) := Slot((), now, now)],
              data := cs1.data[cid := Slot(download.blob, now, now)]), download)
  }

  /** The data cache is keyed by the blob alone and its entries live by their last use. */
  function CallData(c: Config, cs: Caches, now: Time, did: Did, cid: BlobCid, w: World): (Caches, Download) {
    if cid in cs.data && now < cs.data[cid].used + c.dataTti then
      (cs.(data := Touched(cs.data, cid, now)), Downloading(cs.data[cid].value))
    else EvaluateData(c, cs.(data := cs.data - {cid}), now, did, cid, w)
  }

  function EvaluateOwner(c: Config, cs: Caches, now: Time, did: Did, cid: BlobCid, w: World)
    : (Caches, Result<(), OwnershipError>)
  {
    var (cs1, url) := CallPds(c, cs, now, did, w.ownerPds);
    if url.Failure? then (cs1, Failure(OwnerResolutionFailure))
    else if w.ownerOrigin != Ok then (cs1, Failure(OwnershipErrorOf(w.ownerOrigin)))
    else (cs1.(ownership := cs1.ownership[(cid, did) := Slot((), now, now)]), Success(()))
  }

  function CallOwner(c: Config, cs: Caches, now: Time, did: Did, cid: BlobCid, w: World)
    : (Caches, Result<(), OwnershipError>)
  {
    var k := (cid, did);
    if Fresh(cs.ownership, k, now, c.ownershipTtl) then
      (cs.(ownership := Touched(cs.ownership, k, now)), Success(()))
    else EvaluateOwner(c, cs.(ownership := cs.ownership - {k}), now, did, cid, w)
  }

  /** The stages after the policy check. */
  function ServeBlob(c: Config, cs: Caches, now: Time, did: Did, cid: BlobCid, w: World): (Caches, Outcome) {
    var (cs1, download) := CallData(c, cs, now, did, cid, w);
    match download
    case Crashed => (cs1, Denied(Aborted))
    case Failed(e) => (cs1, Denied(DownloadFailed(e)))
    case Downloading(blob) =>
      var (cs2, owned) := CallOwner(c, cs1, now, did, cid, w);
      match owned
      case Failure(e) => (cs2, Denied(OwnershipFailed(e)))
      case Success(_) => (cs2, Granted(blob))
  }

  /** A whole handler for a well-formed request. */
  function Serve(c: Config, cs: Caches, now: Time, did: Did, cid: BlobCid, w: World): (Caches, Outcome) {
    if !c.hasPolicy then ServeBlob(c, cs, now, did, cid, w)
    else
      var (cs1, decision) := CallPolicy(c, cs, now, did, cid, w.policy);
      match decision
      case Success(Forbidden) => (cs1, Denied(PolicyForbids))
      case Success(Allowed) => ServeBlob(c, cs1, now, did, cid, w)
      case Failure(_) =>
        if c.failOpen then ServeBlob(c, cs1, now, did, cid, w) else (cs1, Denied(PolicyUnavailable))
  }

  // ---------- purges ----------

  function PolicyKept(m: map<(Did, BlobCid), Slot<Decision>>, scope: Scope): map<(Did, BlobCid), Slot<Decision>> {
    map k | k in m && !InScope(scope, PolicyKey(k.0, k.1)) :: m[k]
  }

  function IdentityKept(m: map<Did, Slot<Url>>, scope: Scope): map<Did, Slot<Url>> {
    map k | k in m && !InScope(scope, PdsKey(k)) :: m[k]
  }

  function DataKept(m: map<BlobCid, Slot<Blob>>, scope: Scope): map<BlobCid, Slot<Blob>> {
    map k | k in m && !InScope(scope, DataKey(k)) :: m[k]
  }

  function OwnershipKept(m: map<(BlobCid, Did), Slot<()>>, scope: Scope): map<(BlobCid, Did), Slot<()>> {
    map k | k in m && !InScope(scope, OwnerKey(k.0, k.1)) :: m[k]
  }

  /** The caches after a purge that nothing interrupts. */
  function AfterPurge(c: Config, cs: Caches, scope: Scope): Caches {
    Caches(if c.hasPolicy then PolicyKept(cs.policy, scope) else cs.policy, IdentityKept(cs.identity, scope),
           DataKept(cs.data, scope), OwnershipKept(cs.ownership, scope))
  }

  // ---------- responses ----------

  /** The error names of the two endpoints, which are separate types in the source. */
  datatype GetBlobError =
    | MalformedDid | MalformedCid | PolicyForbidden | InternalServerError | CidUnsupported | BlobForbiddenType
    | BlobTooLarge | CannotResolve | BlobNotFound | BlobCidMismatch | BlobFetchFailed

  datatype GetBlobMetadataError =
    | MetaMalformedCid | MetaPolicyForbidden | MetaInternalServerError | MetaCidUnsupported | MetaBlobForbiddenType
    | MetaBlobTooLarge | MetaCannotResolve | MetaBlobNotFound | MetaBlobCidMismatch | MetaBlobFetchFailed

  datatype BlobResponse =
    | BlobBody(bytes: BodyStreams.Buffer, contentType: Mimes.Mime)
    | BlobError(status: nat, error: GetBlobError)
    | BlobCrash

  datatype MetadataResponse =
    | Metadata(size: int, contentType: Mimes.Mime)
    | MetadataError(status: nat, error: GetBlobMetadataError)
    | MetadataCrash

  /** A length cast to a signed 64-bit integer: it wraps above the largest one. */
  function AsI64(n: nat): int {
    var m := n % BodyStreams.U64_SIZE;
    if m <= BodyStreams.ISIZE_MAX then m else m - BodyStreams.U64_SIZE
  }

  /** The response of a getBlob handler that ended in `o`. */
  function BlobResponseOf(o: Outcome): BlobResponse {
    match o
    case Granted(blob) => BlobBody(blob.bytes, blob.mime)
    case Denied(PolicyForbids) => BlobError(410, PolicyForbidden)
    case Denied(PolicyUnavailable) => BlobError(500, InternalServerError)
    case Denied(DownloadFailed(e)) =>
      (match e
       case CidUnsupportedMultihash => BlobError(400, CidUnsupported)
       case ForbiddenMimeType => BlobError(403, BlobForbiddenType)
       case TooLarge => BlobError(413, BlobTooLarge)
       case ResolutionFailure => BlobError(424, CannotResolve)
       case NotFound => BlobError(404, BlobNotFound)
       case CidMismatch => BlobError(502, BlobCidMismatch)
       case FetchFailure => BlobError(502, BlobFetchFailed)
       case ErrorStatusCode => BlobError(502, BlobFetchFailed)
       case StreamFailed => BlobError(502, BlobFetchFailed))
    case Denied(OwnershipFailed(e)) =>
      (match e
       case OwnerResolutionFailure => BlobError(424, CannotResolve)
       case OwnerNotFound => BlobError(404, BlobNotFound)
       case OwnerErrorStatusCode => BlobError(502, CannotResolve)
       case OwnerFetchFailure => BlobError(502, CannotResolve))
    case Denied(Aborted) => BlobCrash
  }

  /** The response of a getBlobMetadata handler that ended in `o`. The source repeats the whole table here, over
      the error type of the other endpoint. */
  function MetadataResponseOf(o: Outcome): MetadataResponse {
    match o
    case Granted(blob) => Metadata(AsI64(|blob.bytes|), blob.mime)
    case Denied(PolicyForbids) => MetadataError(410, MetaPolicyForbidden)
    case Denied(PolicyUnavailable) => MetadataError(500, MetaInternalServerError)
    case Denied(DownloadFailed(e)) =>
      (match e
       case CidUnsupportedMultihash => MetadataError(400, MetaCidUnsupported)
       case ForbiddenMimeType => MetadataError(403, MetaBlobForbiddenType)
       case TooLarge => MetadataError(413, MetaBlobTooLarge)
       case ResolutionFailure => MetadataError(424, MetaCannotResolve)
       case NotFound => MetadataError(404, MetaBlobNotFound)
       case CidMismatch => MetadataError(502, MetaBlobCidMismatch)
       case FetchFailure => MetadataError(502, MetaBlobFetchFailed)
       case ErrorStatusCode => MetadataError(502, MetaBlobFetchFailed)
       case StreamFailed => MetadataError(502, MetaBlobFetchFailed))
    case Denied(OwnershipFailed(e)) =>
      (match e
       case OwnerResolutionFailure => MetadataError(424, MetaCannotResolve)
       case OwnerNotFound => MetadataError(404, MetaBlobNotFound)
       case OwnerErrorStatusCode => MetadataError(502, MetaCannotResolve)
       case OwnerFetchFailure => MetadataError(502, MetaCannotResolve))
    case Denied(Aborted) => MetadataCrash
  }

  /** The text parsers' verdict on the CID of a request, validated. */
  function ParsedCid(raw: Option<Cid>): Option<BlobCid> {
    if raw.Some? && TryFromCid(raw.value).Success? then Some(TryFromCid(raw.value).value) else None
  }

  /** A whole getBlob exchange, given the parsers' verdicts on the two path segments. */
  function ExchangeBlob(c: Config, cs: Caches, now: Time, did: Option<Did>, cid: Option<Cid>, w: World)
    : (Caches, BlobResponse)
  {
    if did.None? then (cs, BlobError(422, MalformedDid))
    else if ParsedCid(cid).None? then (cs, BlobError(422, MalformedCid))
    else
      var (cs1, o) := Serve(c, cs, now, did.value, ParsedCid(cid).value, w);
      (cs1, BlobResponseOf(o))
  }

  /** A whole getBlobMetadata exchange; the request type already holds a well-formed actor. */
  function ExchangeMetadata(c: Config, cs: Caches, now: Time, did: Did, cid: Option<Cid>, w: World)
    : (Caches, MetadataResponse)
  {
    if ParsedCid(cid).None? then (cs, MetadataError(422, MetaMalformedCid))
    else
      var (cs1, o) := Serve(c, cs, now, did, ParsedCid(cid).value, w);
      (cs1, MetadataResponseOf(o))
  }

  // ---------- the two endpoints side by side ----------

  /** The error of getBlob with the same name. */
  function Counterpart(e: GetBlobMetadataError): GetBlobError {
    match e
    case MetaMalformedCid => MalformedCid
    case MetaPolicyForbidden => PolicyForbidden
    case MetaInternalServerError => InternalServerError
    case MetaCidUnsupported => CidUnsupported
    case MetaBlobForbiddenType => BlobForbiddenType
    case MetaBlobTooLarge => BlobTooLarge
    case MetaCannotResolve => CannotResolve
    case MetaBlobNotFound => BlobNotFound
    case MetaBlobCidMismatch => BlobCidMismatch
    case MetaBlobFetchFailed => BlobFetchFailed
  }

  /** The two responses tell the same story. */
  predicate Agree(b: BlobResponse, m: MetadataResponse) {
    match m
    case Metadata(size, contentType) => b.BlobBody? && size == |b.bytes| && contentType == b.contentType
    case MetadataError(status, error) => b == BlobError(status, Counterpart(error))
    case MetadataCrash => b == BlobCrash
  }

  /** From the same caches and answers the two endpoints leave the same caches and tell the same story. */
  lemma EndpointsAgree(c: Config, cs: Caches, now: Time, did: Did, cid: Option<Cid>, w: World)
    ensures var (afterBlob, blob) := ExchangeBlob(c, cs, now, Some(did), cid, w);
            var (afterMeta, meta) := ExchangeMetadata(c, cs, now, did, cid, w);
            afterBlob == afterMeta && Agree(blob, meta)
  {
    if ParsedCid(cid).Some? {
      TablesAgree(Serve(c, cs, now, did, ParsedCid(cid).value, w).1);
    }
  }

  /** The two response tables name the same status and error for every outcome, and the size does not wrap,
      because no buffer is longer than the largest signed integer. */
  lemma TablesAgree(o: Outcome)
    ensures Agree(BlobResponseOf(o), MetadataResponseOf(o))
  {
  }
}
