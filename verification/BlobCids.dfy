/** The content identifiers of blobs: the validated wrapper `BlobCid`
    (crates/porxie/src/types/blob_cid.rs) and the recomputation of a CID from downloaded bytes
    (crates/porxie/src/blob_service.rs). */
module BlobCids {
  import opened Wrappers

  newtype Byte = x: int | 0 <= x < 256
  type Bytes = seq<Byte>

  const RAW_CODEC: nat := 0x55
  const DAG_PB_CODEC: nat := 0x70
  const SHA2_256: nat := 0x12
  const SHA2_512: nat := 0x13

  datatype Version = V0 | V1
  datatype Multihash = Multihash(code: nat, digest: Bytes)
  datatype Cid = Cid(version: Version, codec: nat, hash: Multihash)

  /** What the `cid` crate guarantees of every CID it hands out: version 0 implies dag-pb and sha2-256. */
  predicate FromCidCrate(cid: Cid) {
    cid.version == V0 ==> cid.codec == DAG_PB_CODEC && cid.hash.code == SHA2_256
  }

  predicate IsBlobCid(cid: Cid) {
    cid.version == V1 && cid.codec == RAW_CODEC && cid.hash.code == SHA2_256
  }

  type BlobCid = c: Cid | IsBlobCid(c) witness Cid(V1, RAW_CODEC, Multihash(SHA2_256, []))

  datatype BlobCidError =
    | InvalidBlobCodec(codec: nat)
    | InvalidBlobVersion(version: Version)
    | InvalidMultihash(hash: Multihash)

  /** The hash algorithms compiled into the multihash table (feature `sha2`). */
  datatype Code = Sha2_256 | Sha2_512

  function CodeOf(code: nat): (c: Option<Code>) {
    if code == SHA2_256 then Some(Sha2_256)
    else if code == SHA2_512 then Some(Sha2_512)
    else None
  }

  function CodeNumber(code: Code): nat {
    match code
    case Sha2_256 => SHA2_256
    case Sha2_512 => SHA2_512
  }

  /** The three checks, in the source's order. */
  function TryFromCid(cid: Cid): (r: Result<BlobCid, BlobCidError>)
    ensures r.Success? <==> IsBlobCid(cid)
    ensures r.Success? ==> r.value == cid
    ensures FromCidCrate(cid) ==> r != Failure(InvalidBlobVersion(cid.version))
  {
    if cid.codec != RAW_CODEC then Failure(InvalidBlobCodec(cid.codec))
    else if cid.version != V1 then Failure(InvalidBlobVersion(cid.version))
    else if CodeOf(cid.hash.code) != Some(Sha2_256) then Failure(InvalidMultihash(cid.hash))
    else Success(cid)
  }

  datatype CidCheck = CidMatches | CidMismatch | CidUnsupportedMultihash

  /** A digest algorithm: the bytes of `hash(code, bytes)`. Nothing is assumed about it. */
  type Hasher = (Code, Bytes) -> Bytes

  /** Recompute the CID of downloaded bytes and compare it with the requested one. */
  function CheckCid(hash: Hasher, cid: Cid, bytes: Bytes): CidCheck {
    match CodeOf(cid.hash.code)
    case None => CidUnsupportedMultihash
    case Some(code) =>
      var computed := Cid(V1, RAW_CODEC, Multihash(CodeNumber(code), hash(code, bytes)));
      if computed != cid then CidMismatch else CidMatches
  }

  /** Validation makes the multihash error dead, and comparing whole CIDs compares exactly the digests. */
  lemma CheckOfValidatedCid(hash: Hasher, cid: Cid, bytes: Bytes)
    requires TryFromCid(cid).Success?
    ensures CheckCid(hash, cid, bytes) != CidUnsupportedMultihash
    ensures CheckCid(hash, cid, bytes) == CidMismatch <==> hash(Sha2_256, bytes) != cid.hash.digest
    ensures CheckCid(hash, cid, bytes) == CidMatches <==> hash(Sha2_256, bytes) == cid.hash.digest
  {
    var computed := Cid(V1, RAW_CODEC, Multihash(SHA2_256, hash(Sha2_256, bytes)));
    assert computed == cid <==> computed.hash.digest == cid.hash.digest;
  }

  /** Without the validation the error is live exactly for the codes missing from the table. */
  lemma UnsupportedMultihashIff(hash: Hasher, cid: Cid, bytes: Bytes)
    ensures CheckCid(hash, cid, bytes) == CidUnsupportedMultihash
            <==> cid.hash.code !in {SHA2_256, SHA2_512}
  {
  }
}
