/** The weighers of the four caches, and what the split of the memory budget bounds
    (crates/porxie/src/cache.rs, the cache builders of the three services and crates/porxie/src/main.rs). */
module MemoryBudget {
  import opened BlobCids
  import opened Protocol
  import opened Invariants
  import opened Completion
  import opened Sums
  import CacheSizes

  const U32_MAX: nat := 0xffff_ffff

  /** `try_into().unwrap_or(u32::MAX)` */
  function ToU32(n: nat): nat {
    if n <= U32_MAX then n else U32_MAX
  }

  /** The length of a CID in bytes, whatever its encoding. */
  type CidLength = Cid -> nat

  /** The true size of what a weigher looks at. */
  function TrueSize(encodedLen: CidLength, k: Key, v: Value): nat {
    match k
    case PolicyKey(did, cid) => |did| + encodedLen(cid)
    case OwnerKey(cid, did) => encodedLen(cid) + |did|
    case PdsKey(did) => |did| + (if v.Endpoint? then |v.url| else 0)
    case DataKey(_) => if v.Content? then |v.blob.bytes| else 0
  }

  function Weight(encodedLen: CidLength, k: Key, v: Value): nat {
    ToU32(TrueSize(encodedLen, k, v))
  }

  function KeysOf(s: State, name: CacheName): set<Key> {
    set k | k in s.cache && CacheOf(k) == name
  }

  ghost function TotalWeight(encodedLen: CidLength, s: State, name: CacheName): nat {
    Sum(KeysOf(s, name), k => if k in s.cache then Weight(encodedLen, k, s.cache[k].value) else 0)
  }

  /** The bytes of all cached blobs. */
  ghost function BlobBytes(encodedLen: CidLength, s: State): nat {
    Sum(KeysOf(s, DataCache), k => if k in s.cache then TrueSize(encodedLen, k, s.cache[k].value) else 0)
  }

  function Capacity(sizes: CacheSizes.Sizes, name: CacheName): nat {
    match name
    case PolicyCache => sizes.policy
    case IdentityCache => sizes.identity
    case DataCache => sizes.blob
    case OwnershipCache => sizes.ownership
  }

  /** What moka promises once its maintenance has run: no cache weighs more than its capacity. */
  ghost predicate Settled(encodedLen: CidLength, sizes: CacheSizes.Sizes, s: State) {
    forall name: CacheName :: TotalWeight(encodedLen, s, name) <= Capacity(sizes, name)
  }

  /** The weigher is exact on every blob that can be cached exactly when the size cap fits in 32 bits. */
  lemma WeigherExactIff(max: nat)
    ensures max <= U32_MAX <==> forall n: nat :: n <= max ==> ToU32(n) == n
  {
    assert max > U32_MAX ==> ToU32(max) != max;
  }

  /** A cached blob weighs its bytes. */
  lemma BlobWeight(c: Config, encodedLen: CidLength, s: State, k: Key)
    requires CacheInv(c, s) && c.rules.maxSize <= U32_MAX && k in s.cache && k.DataKey?
    ensures Weight(encodedLen, k, s.cache[k].value) == TrueSize(encodedLen, k, s.cache[k].value)
  {
    assert EntryOk(c, s.log, s.now, k, s.cache[k]);
  }

  /** In every reachable settled state, the bytes of the cached blobs and the weights counted by the other
      three caches together stay within the configured allocation, as long as the size cap fits in 32 bits. */
  lemma BudgetHolds(c: Config, encodedLen: CidLength, memory: nat, states: seq<State>, steps: seq<Step>, i: nat)
    requires 0 < memory <= CacheSizes.U64_MAX && c.rules.maxSize <= U32_MAX
    requires IsRun(c, states, steps) && i < |states|
    ensures var s := states[i]; var sizes := CacheSizes.Compute(memory);
            && sizes.Success?
            && (Settled(encodedLen, sizes.value, s) ==>
                  BlobBytes(encodedLen, s) + TotalWeight(encodedLen, s, PolicyCache)
                  + TotalWeight(encodedLen, s, IdentityCache) + TotalWeight(encodedLen, s, OwnershipCache) <= memory)
  {
    hide IsRun, LogOk, FlightInv, ReqInv, HistoryInv, Weight, TrueSize;
    var s := states[i];
    RunInv(c, states, steps, i);
    CacheSizes.SplitIsExact(memory);
    forall k | k in KeysOf(s, DataCache)
      ensures TrueSize(encodedLen, k, s.cache[k].value) <= Weight(encodedLen, k, s.cache[k].value)
    {
      BlobWeight(c, encodedLen, s, k);
    }
    SumMono(KeysOf(s, DataCache),
            k => if k in s.cache then TrueSize(encodedLen, k, s.cache[k].value) else 0,
            k => if k in s.cache then Weight(encodedLen, k, s.cache[k].value) else 0);
    var sizes := CacheSizes.Compute(memory).value;
    if Settled(encodedLen, sizes, s) {
      assert TotalWeight(encodedLen, s, DataCache) <= Capacity(sizes, DataCache);
      assert TotalWeight(encodedLen, s, PolicyCache) <= Capacity(sizes, PolicyCache);
      assert TotalWeight(encodedLen, s, IdentityCache) <= Capacity(sizes, IdentityCache);
      assert TotalWeight(encodedLen, s, OwnershipCache) <= Capacity(sizes, OwnershipCache);
    }
  }
}
