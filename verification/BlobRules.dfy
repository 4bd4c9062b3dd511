/** What happens to downloaded bytes before they may be served: the CID check, the sniffing and the allowlist
    (crates/porxie/src/blob_service.rs), as one function of the bytes. */
module BlobRules {
  import opened Wrappers
  import opened BlobCids
  import opened Mimes
  import BodyStreams

  /** The blob settings. The digest and the signature table are arbitrary functions. */
  datatype Rules = Rules(hash: Hasher, infer: Inference, allowed: seq<Mime>, maxSize: BodyStreams.U64)

  datatype Blob = Blob(bytes: BodyStreams.Buffer, mime: Mime)

  datatype DownloadError =
    | ResolutionFailure
    | CidMismatch
    | CidUnsupportedMultihash
    | NotFound
    | TooLarge
    | ErrorStatusCode
    | FetchFailure
    | StreamFailed
    | ForbiddenMimeType

  datatype OwnershipError = OwnerResolutionFailure | OwnerNotFound | OwnerErrorStatusCode | OwnerFetchFailure

  /** The answer of an origin to a GET: its status class, or no answer at all. */
  datatype OriginAnswer = Ok | Missing | OtherStatus | Unreachable

  function DownloadErrorOf(answer: OriginAnswer): DownloadError
    requires answer != Ok
  {
    match answer
    case Missing => NotFound
    case OtherStatus => ErrorStatusCode
    case Unreachable => FetchFailure
  }

  function OwnershipErrorOf(answer: OriginAnswer): OwnershipError
    requires answer != Ok
  {
    match answer
    case Missing => OwnerNotFound
    case OtherStatus => OwnerErrorStatusCode
    case Unreachable => OwnerFetchFailure
  }

  /** The body as far as the size cap lets it through. */
  function Downloaded(rules: Rules, declared: Option<BodyStreams.U64>, chunks: seq<BodyStreams.Chunk>)
    : Result<BodyStreams.Buffer, DownloadError>
  {
    match BodyStreams.Capped(declared, chunks, rules.maxSize)
    case Success(bytes) => Success(bytes)
    case Failure(e) => Failure(if e.TooLarge? then TooLarge else StreamFailed)
  }

  /** The download would need more memory than a buffer can have. */
  predicate Panics(rules: Rules, declared: Option<BodyStreams.U64>, chunks: seq<BodyStreams.Chunk>) {
    BodyStreams.Capped(declared, chunks, rules.maxSize) == Failure(BodyStreams.OutOfCapacity)
  }

  /** No downloaded body exceeds the size cap. */
  lemma DownloadedFits(rules: Rules, declared: Option<BodyStreams.U64>, chunks: seq<BodyStreams.Chunk>)
    ensures var r := Downloaded(rules, declared, chunks); r.Success? ==> |r.value| <= rules.maxSize
  {
    var r := BodyStreams.Capped(declared, chunks, rules.maxSize);
    if r.Success? {
      BodyStreams.CappedIff(declared, chunks, rules.maxSize, r.value);
    }
  }

  /** A blob fit to be served under `cid`. */
  predicate Genuine(rules: Rules, cid: BlobCid, blob: Blob) {
    && rules.hash(Sha2_256, blob.bytes) == cid.hash.digest
    && |blob.bytes| <= rules.maxSize
    && blob.mime == SniffMime(rules.infer, blob.bytes)
    && AllowedBy(blob.mime, rules.allowed)
  }

  /** The checks on a complete body, in the source's order. */
  function Accept(rules: Rules, cid: BlobCid, bytes: BodyStreams.Buffer): Result<Blob, DownloadError> {
    match CheckCid(rules.hash, cid, bytes)
    case CidUnsupportedMultihash => Failure(DownloadError.CidUnsupportedMultihash)
    case CidMismatch => Failure(DownloadError.CidMismatch)
    case CidMatches =>
      var mime := SniffMime(rules.infer, bytes);
      if !AllowedBy(mime, rules.allowed) then Failure(ForbiddenMimeType) else Success(Blob(bytes, mime))
  }

  /** Bytes within the size cap are accepted exactly when they make a genuine blob, which is then the only one;
      a validated CID never meets the multihash error. */
  lemma AcceptIff(rules: Rules, cid: BlobCid, bytes: BodyStreams.Buffer, blob: Blob)
    requires |bytes| <= rules.maxSize
    ensures Accept(rules, cid, bytes) == Success(blob) <==> Genuine(rules, cid, blob) && blob.bytes == bytes
    ensures Accept(rules, cid, bytes) != Failure(DownloadError.CidUnsupportedMultihash)
    ensures Accept(rules, cid, bytes) == Failure(DownloadError.CidMismatch) <==>
            rules.hash(Sha2_256, bytes) != cid.hash.digest
  {
    CheckOfValidatedCid(rules.hash, cid, bytes);
  }

  /** Whatever the bytes, a validated CID never meets the multihash error. */
  lemma AcceptIsSupported(rules: Rules, cid: BlobCid, bytes: BodyStreams.Buffer)
    ensures Accept(rules, cid, bytes) != Failure(DownloadError.CidUnsupportedMultihash)
  {
    CheckOfValidatedCid(rules.hash, cid, bytes);
  }

  /** Two byte strings with one digest. */
  predicate Collide(rules: Rules, a: Bytes, b: Bytes) {
    a != b && rules.hash(Sha2_256, a) == rules.hash(Sha2_256, b)
  }

  /** Genuine blobs of one CID are equal, up to a collision of the digest. */
  lemma GenuineIsUnique(rules: Rules, cid: BlobCid, a: Blob, b: Blob)
    requires Genuine(rules, cid, a) && Genuine(rules, cid, b)
    ensures a == b || Collide(rules, a.bytes, b.bytes)
  {
    if a.bytes == b.bytes {
      assert a == Blob(b.bytes, b.mime) == b;
    }
  }
}
