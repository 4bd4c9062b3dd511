/** The size-capped download of a response body (crates/porxie/src/networking/http.rs). */
module BodyStreams {
  import opened Numbers
  import opened Wrappers
  import opened BlobCids

  const U64_SIZE: nat := 0x1_0000_0000_0000_0000
  const ISIZE_MAX: nat := 0x7fff_ffff_ffff_ffff

  type U64 = x: nat | x < U64_SIZE

  /** A chunk as a Rust buffer: its length fits in `isize`. */
  type Buffer = b: Bytes | |b| <= ISIZE_MAX

  datatype Chunk = Data(bytes: Buffer) | TransportError

  /** `OutOfCapacity` is the panic of a `Vec` asked to hold more than `isize::MAX` bytes. */
  datatype StreamError = TooLarge | ClientError | OutOfCapacity

  type StreamResult = Result<Buffer, StreamError>

  /** The size announced for the body: the client's size hint, else the Content-Length header. */
  function DeclaredSize(hint: Option<U64>, header: Option<U64>): Option<U64> {
    if hint.Some? then hint else header
  }

  /** 64-bit addition as the machine does it. */
  function WrappingAdd(a: U64, b: U64): U64 {
    (a + b) % U64_SIZE
  }

  /** The loop over the remaining chunks, from a buffer already filled. */
  function Drain(buffer: Buffer, chunks: seq<Chunk>, max: U64): StreamResult
    decreases |chunks|
  {
    if chunks == [] then Success(buffer)
    else
      match chunks[0]
      case TransportError => Failure(ClientError)
      case Data(bytes) =>
        if WrappingAdd(|buffer|, |bytes|) > max then Failure(TooLarge)
        else if |buffer| + |bytes| > ISIZE_MAX then Failure(OutOfCapacity)
        else Drain(buffer + bytes, chunks[1..], max)
  }

  const DEFAULT_CAPACITY: nat := 64 * 1024

  /** The whole download, given the announced size and the chunks the stream yields. */
  function Capped(declared: Option<U64>, chunks: seq<Chunk>, max: U64): StreamResult {
    if declared.Some? && declared.value > max then Failure(TooLarge)
    else if Min(if declared.Some? then declared.value else DEFAULT_CAPACITY, max) > ISIZE_MAX then
      Failure(OutOfCapacity)
    else Drain([], chunks, max)
  }

  /** The streaming loop. */
  method BytesStreamCapped(hint: Option<U64>, header: Option<U64>, chunks: seq<Chunk>, max: U64)
    returns (r: StreamResult)
    ensures r == Capped(DeclaredSize(hint, header), chunks, max)
  {
    var inferred := if hint.Some? then hint else header;
    if inferred.Some? && inferred.value > max {
      return Failure(TooLarge);
    }
    var capacity := Min(if inferred.Some? then inferred.value else DEFAULT_CAPACITY, max);
    if capacity > ISIZE_MAX {
      return Failure(OutOfCapacity);
    }
    var buffer: Buffer := [];
    for i := 0 to |chunks|
      invariant |buffer| <= max
      invariant Drain([], chunks, max) == Drain(buffer, chunks[i..], max)
    {
      match chunks[i] {
        case TransportError =>
          return Failure(ClientError);
        case Data(bytes) =>
          NoWrap(buffer, bytes);
          if WrappingAdd(|buffer|, |bytes|) > max {
            return Failure(TooLarge);
          }
          if |buffer| + |bytes| > ISIZE_MAX {
            return Failure(OutOfCapacity);
          }
          buffer := buffer + bytes;
      }
    }
    return Success(buffer);
  }

  /** The 64-bit sum of two real buffer lengths never wraps. */
  lemma NoWrap(a: Buffer, b: Buffer)
    ensures WrappingAdd(|a|, |b|) == |a| + |b|
  {
  }

  predicate AllData(chunks: seq<Chunk>) {
    forall chunk :: chunk in chunks ==> chunk.Data?
  }

  /** The body carried by error-free chunks. */
  function Body(chunks: seq<Chunk>): Bytes
    requires AllData(chunks)
  {
    if chunks == [] then [] else chunks[0].bytes + Body(chunks[1..])
  }

  function Limit(max: U64): nat {
    Min(max, ISIZE_MAX)
  }

  lemma {:induction false} DrainIff(buffer: Buffer, chunks: seq<Chunk>, max: U64, b: Buffer)
    requires |buffer| <= max
    ensures Drain(buffer, chunks, max) == Success(b) <==>
            AllData(chunks) && b == buffer + Body(chunks) && |b| <= Limit(max)
    decreases |chunks|
  {
    if chunks == [] {
      assert buffer + Body(chunks) == buffer;
    } else if chunks[0].Data? {
      var bytes := chunks[0].bytes;
      NoWrap(buffer, bytes);
      assert AllData(chunks) <==> AllData(chunks[1..]);
      if AllData(chunks) {
        assert buffer + Body(chunks) == buffer + bytes + Body(chunks[1..]);
      }
      if |buffer| + |bytes| <= Limit(max) {
        DrainIff(buffer + bytes, chunks[1..], max, b);
      }
    } else {
      assert chunks[0] in chunks;
    }
  }

  /** The download succeeds exactly when the announced size is absent or within the cap, no chunk fails and
      the body is within the cap; the result is then the body itself. */
  lemma CappedIff(declared: Option<U64>, chunks: seq<Chunk>, max: U64, b: Buffer)
    ensures Capped(declared, chunks, max) == Success(b) <==>
            && (declared.Some? ==> declared.value <= Limit(max))
            && AllData(chunks) && b == Body(chunks) && |b| <= Limit(max)
  {
    DrainIff([], chunks, max, b);
  }

  /** The first `i` chunks are error-free and take a buffer of `filled` bytes over the limit; one fewer do not. */
  predicate Oversteps(filled: nat, chunks: seq<Chunk>, max: U64, i: nat) {
    && 0 < i <= |chunks| && AllData(chunks[..i])
    && filled + |Body(chunks[..i - 1])| <= Limit(max) < filled + |Body(chunks[..i])|
  }

  lemma PrefixOfData(chunks: seq<Chunk>, i: nat)
    requires 0 < i <= |chunks| && AllData(chunks[..i])
    ensures AllData(chunks[..i - 1]) && chunks[0].Data? && AllData(chunks[1..][..i - 1])
    ensures |Body(chunks[..i])| == |chunks[0].bytes| + |Body(chunks[1..][..i - 1])|
  {
    assert chunks[..i] == [chunks[0]] + chunks[1..][..i - 1];
    assert chunks[..i][1..] == chunks[1..][..i - 1];
    forall chunk | chunk in chunks[..i - 1]
      ensures chunk in chunks[..i]
    {
    }
    assert chunks[0] in chunks[..i];
  }

  /** Which prefix oversteps is decided chunk by chunk. */
  lemma OverstepsLater(filled: nat, chunks: seq<Chunk>, max: U64, i: nat)
    requires chunks != [] && chunks[0].Data? && filled + |chunks[0].bytes| <= Limit(max)
    ensures Oversteps(filled + |chunks[0].bytes|, chunks[1..], max, i) ==> Oversteps(filled, chunks, max, i + 1)
    ensures i > 0 && Oversteps(filled, chunks, max, i) ==>
              i > 1 && Oversteps(filled + |chunks[0].bytes|, chunks[1..], max, i - 1)
    ensures Oversteps(filled + |chunks[0].bytes|, chunks[1..], max, i) ==>
              |chunks[0].bytes| + |Body(chunks[1..][..i])| == |Body(chunks[..i + 1])|
  {
    if Oversteps(filled + |chunks[0].bytes|, chunks[1..], max, i) {
      assert chunks[..i + 1] == [chunks[0]] + chunks[1..][..i];
      PrefixOfData(chunks, i + 1);
      PrefixOfData(chunks, i);
    }
    assert chunks[1..][..0] == [];
    if i > 0 && Oversteps(filled, chunks, max, i) {
      PrefixOfData(chunks, i);
      if i > 1 {
        PrefixOfData(chunks, i - 1);
      }
    }
  }

  /** At the first chunk already. */
  lemma OverstepsNow(filled: nat, chunks: seq<Chunk>, max: U64, i: nat)
    requires chunks != [] && chunks[0].Data? && filled <= Limit(max) < filled + |chunks[0].bytes|
    ensures Oversteps(filled, chunks, max, 1) && |Body(chunks[..1])| == |chunks[0].bytes|
    ensures Oversteps(filled, chunks, max, i) ==> i == 1
  {
    assert chunks[..1] == [chunks[0]] && chunks[..0] == [];
    assert AllData(chunks[..1]);
    assert chunks[1..][..0] == [];
    PrefixOfData(chunks, 1);
    if Oversteps(filled, chunks, max, i) {
      PrefixOfData(chunks, i);
    }
  }

  lemma {:induction false} DrainFailures(buffer: Buffer, chunks: seq<Chunk>, max: U64)
    requires |buffer| <= Limit(max)
    ensures var r := Drain(buffer, chunks, max);
            && (r == Failure(TooLarge) <==>
                exists i: nat :: Oversteps(|buffer|, chunks, max, i) && |buffer| + |Body(chunks[..i])| > max)
            && (r == Failure(OutOfCapacity) <==>
                exists i: nat :: Oversteps(|buffer|, chunks, max, i) && |buffer| + |Body(chunks[..i])| <= max)
    decreases |chunks|
  {
    if chunks != [] && chunks[0].Data? {
      var bytes, rest := chunks[0].bytes, chunks[1..];
      NoWrap(buffer, bytes);
      if |buffer| + |bytes| > Limit(max) {
        forall i: nat
          ensures Oversteps(|buffer|, chunks, max, i) ==> i == 1
        {
          OverstepsNow(|buffer|, chunks, max, i);
        }
        OverstepsNow(|buffer|, chunks, max, 1);
      } else {
        DrainFailures(buffer + bytes, rest, max);
        DrainGoesOn(buffer, chunks, max);
      }
    } else if chunks != [] {
      forall i: nat
        ensures !Oversteps(|buffer|, chunks, max, i)
      {
        if Oversteps(|buffer|, chunks, max, i) {
          PrefixOfData(chunks, i);
        }
      }
    }
  }

  /** The overstepping prefixes of a stream are those of its rest, one chunk longer. */
  lemma DrainGoesOn(buffer: Buffer, chunks: seq<Chunk>, max: U64)
    requires chunks != [] && chunks[0].Data? && |buffer| + |chunks[0].bytes| <= Limit(max)
    ensures var rest := chunks[1..]; var filled := |buffer| + |chunks[0].bytes|;
            && ((exists i: nat :: Oversteps(filled, rest, max, i) && filled + |Body(rest[..i])| > max) <==>
                (exists i: nat :: Oversteps(|buffer|, chunks, max, i) && |buffer| + |Body(chunks[..i])| > max))
            && ((exists i: nat :: Oversteps(filled, rest, max, i) && filled + |Body(rest[..i])| <= max) <==>
                (exists i: nat :: Oversteps(|buffer|, chunks, max, i) && |buffer| + |Body(chunks[..i])| <= max))
  {
    var rest := chunks[1..];
    var filled := |buffer| + |chunks[0].bytes|;
    forall i: nat | Oversteps(filled, rest, max, i)
      ensures Oversteps(|buffer|, chunks, max, i + 1)
      ensures filled + |Body(rest[..i])| == |buffer| + |Body(chunks[..i + 1])|
    {
      OverstepsLater(|buffer|, chunks, max, i);
    }
    forall i: nat | Oversteps(|buffer|, chunks, max, i)
      ensures i > 1 && Oversteps(filled, rest, max, i - 1)
      ensures filled + |Body(rest[..i - 1])| == |buffer| + |Body(chunks[..i])|
    {
      OverstepsLater(|buffer|, chunks, max, i);
      OverstepsLater(|buffer|, chunks, max, i - 1);
    }
  }

  /** Which error it is, for every cap. Too large: the announced size exceeds the cap, or the first error-free
      prefix of the stream over the limit also exceeds the cap. The panic: the announced size or that prefix is
      within the cap, but more than a buffer can hold; so it needs a cap that no buffer can reach. Any other
      failure is the transport error. */
  lemma CappedFailures(declared: Option<U64>, chunks: seq<Chunk>, max: U64)
    ensures var r := Capped(declared, chunks, max); var announced := if declared.Some? then declared.value else 0;
            && (r == Failure(TooLarge) <==>
                || announced > max
                || (announced <= Limit(max)
                    && exists i: nat :: Oversteps(0, chunks, max, i) && |Body(chunks[..i])| > max))
            && (r == Failure(OutOfCapacity) <==>
                || ISIZE_MAX < announced <= max
                || (announced <= Limit(max)
                    && exists i: nat :: Oversteps(0, chunks, max, i) && |Body(chunks[..i])| <= max))
    ensures max <= ISIZE_MAX ==> Capped(declared, chunks, max) != Failure(OutOfCapacity)
  {
    DrainFailures([], chunks, max);
  }

  /** How an error-free body is cut into chunks does not matter, for every cap outside the one window in which
      a body can outgrow a `Vec` in some chunkings before it outgrows the cap. */
  lemma ChunkingIndependence(declared: Option<U64>, one: seq<Chunk>, two: seq<Chunk>, max: U64)
    requires !(ISIZE_MAX < max < 2 * ISIZE_MAX)
    requires AllData(one) && AllData(two) && Body(one) == Body(two)
    ensures Capped(declared, one, max) == Capped(declared, two, max)
  {
    NoTransportError(declared, one, max);
    NoTransportError(declared, two, max);
    if |Body(one)| <= Limit(max) {
      CappedIff(declared, one, max, Body(one));
      CappedIff(declared, two, max, Body(two));
    }
    var r1, r2 := Capped(declared, one, max), Capped(declared, two, max);
    SuccessIsBody(declared, one, max);
    SuccessIsBody(declared, two, max);
    if max <= ISIZE_MAX {
      CappedFailures(declared, one, max);
      CappedFailures(declared, two, max);
      assert r1.Failure? ==> r1.error == TooLarge;
      assert r2.Failure? ==> r2.error == TooLarge;
    } else if declared.None? || declared.value <= max {
      DrainNeverTooLarge([], one, max);
      DrainNeverTooLarge([], two, max);
      assert r1.Failure? ==> r1.error == OutOfCapacity;
      assert r2.Failure? ==> r2.error == OutOfCapacity;
    }
  }

  lemma SuccessIsBody(declared: Option<U64>, chunks: seq<Chunk>, max: U64)
    requires AllData(chunks)
    ensures var r := Capped(declared, chunks, max);
            r.Success? ==> r.value == Body(chunks) && |r.value| <= Limit(max)
  {
    var r := Capped(declared, chunks, max);
    if r.Success? {
      CappedIff(declared, chunks, max, r.value);
    }
  }

  lemma {:induction false} DrainNeverTooLarge(buffer: Buffer, chunks: seq<Chunk>, max: U64)
    requires max >= 2 * ISIZE_MAX
    ensures Drain(buffer, chunks, max) != Failure(TooLarge)
    decreases |chunks|
  {
    if chunks != [] && chunks[0].Data? {
      NoWrap(buffer, chunks[0].bytes);
      if |buffer| + |chunks[0].bytes| <= ISIZE_MAX {
        DrainNeverTooLarge(buffer + chunks[0].bytes, chunks[1..], max);
      }
    }
  }

  function Zeros(n: nat): Bytes {
    seq(n, _ => 0)
  }

  /** Inside that window the cut decides between the two errors. */
  lemma ChunkingMatters(max: U64) returns (one: seq<Chunk>, two: seq<Chunk>)
    requires ISIZE_MAX < max < 2 * ISIZE_MAX
    ensures AllData(one) && AllData(two) && Body(one) == Body(two)
    ensures Capped(None, one, max) == Failure(TooLarge)
    ensures Capped(None, two, max) == Failure(OutOfCapacity)
  {
    var full, rest := Zeros(ISIZE_MAX), Zeros(max + 1 - ISIZE_MAX);
    one := [Data(full), Data(rest)];
    two := [Data(full), Data(rest[..1]), Data(rest[1..])];
    assert [] + full == full;
    assert one[1..] == [Data(rest)] && one[1..][1..] == [];
    assert two[1..] == [Data(rest[..1]), Data(rest[1..])];
    assert two[1..][1..] == [Data(rest[1..])] && two[1..][1..][1..] == [];
    assert Body(two[1..][1..]) == rest[1..] + [] == rest[1..];
    assert Body(two[1..]) == rest[..1] + rest[1..] == rest;
    assert Body(one[1..]) == rest + [] == rest;
    assert Drain([], one, max) == Drain(full, one[1..], max);
    assert Drain([], two, max) == Drain(full, two[1..], max);
  }

  lemma {:induction false} DrainNoTransportError(buffer: Buffer, chunks: seq<Chunk>, max: U64)
    requires AllData(chunks)
    ensures Drain(buffer, chunks, max) != Failure(ClientError)
    decreases |chunks|
  {
    if chunks != [] {
      assert chunks[0] in chunks;
      var bytes := chunks[0].bytes;
      if WrappingAdd(|buffer|, |bytes|) <= max && |buffer| + |bytes| <= ISIZE_MAX {
        DrainNoTransportError(buffer + bytes, chunks[1..], max);
      }
    }
  }

  lemma NoTransportError(declared: Option<U64>, chunks: seq<Chunk>, max: U64)
    requires AllData(chunks)
    ensures Capped(declared, chunks, max) != Failure(ClientError)
  {
    DrainNoTransportError([], chunks, max);
  }
}
