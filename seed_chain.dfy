/**
 * The one-way seed chain: one SHA-256 derivation step splits a digest into the
 * next seed and a broadcastable identifier, and chain expansion repeats it.
 */
module SeedChain {
  import opened Wrappers

  type Byte = bv8
  type Bytes = seq<Byte>

  /** A SHA-256 digest (FIPS 180-4) is always 32 bytes. */
  type Digest = d: Bytes | |d| == 32 witness seq(32, _ => 0 as Byte)

  /**
   * The platform functions the chain is built from; their implementations are
   * not part of this model. `None` stands for an exception thrown by the call.
   */
  datatype Primitives = Primitives(
    hash: Bytes -> Digest,                // SHA256.hash
    uuidString: Bytes -> string,          // ByteUtils.byte2UUIDstring
    uuidBytes: string -> Option<Bytes>,   // ByteUtils.uuid2bytes(UUID.fromString(s))
    stringBytes: string -> Option<Bytes>  // ByteUtils.string2byteArray
  )

  /** UUID.fromString followed by ByteUtils.uuid2bytes. */
  function ParseSeed(p: Primitives, s: string): Option<Bytes> {
    p.uuidBytes(s)
  }

  /** What a call can throw, as far as the model distinguishes it. */
  datatype Fault = ConversionFailed | NullPointer | IllegalArgument | IndexOutOfBounds

  /** A SeedUUIDRecord: timestamp, seed and identifier, both UUID-formatted strings. */
  datatype Record = Record(ts: int, seed: string, uuid: string)

  /** The two halves of one derivation step. */
  datatype Step = Step(next: Bytes, id: Bytes)

  /** One derivation step: the digest's first 16 bytes become the next seed, the last 16 the identifier. */
  function Derive(hash: Bytes -> Digest, seed: Bytes): (d: Step)
    ensures |d.next| == 16 && |d.id| == 16
    ensures d.next + d.id == hash(seed)
  {
    var out := hash(seed);
    Step(out[..16], out[16..])
  }

  /** generateSeedHelper(seed, ts): the derived pair, formatted, at timestamp `ts`. */
  function DeriveRecord(p: Primitives, seed: Bytes, ts: int): (r: Record)
    ensures r.ts == ts
    ensures r.seed == p.uuidString(p.hash(seed)[..16])
    ensures r.uuid == p.uuidString(p.hash(seed)[16..])
  {
    var d := Derive(p.hash, seed);
    Record(ts, p.uuidString(d.next), p.uuidString(d.id))
  }

  /** generateSeedHelper(seed): the same record at timestamp 0. */
  function DeriveRecordUntimed(p: Primitives, seed: Bytes): (r: Record)
    ensures r.ts == 0
    ensures r.seed == p.uuidString(p.hash(seed)[..16])
    ensures r.uuid == p.uuidString(p.hash(seed)[16..])
  {
    var d := Derive(p.hash, seed);
    Record(0, p.uuidString(d.next), p.uuidString(d.id))
  }

  /** generateSeedChainHelper(seed): the pair {next seed, identifier} as two strings. */
  function DerivePair(p: Primitives, seed: Bytes): (pair: (string, string))
    ensures pair.0 == p.uuidString(p.hash(seed)[..16])
    ensures pair.1 == p.uuidString(p.hash(seed)[16..])
  {
    var d := Derive(p.hash, seed);
    (p.uuidString(d.next), p.uuidString(d.id))
  }

  /** The three helpers derive the same pair; only the timestamp differs. */
  lemma HelpersAgree(p: Primitives, seed: Bytes, ts: int)
    ensures DeriveRecord(p, seed, ts).(ts := 0) == DeriveRecordUntimed(p, seed)
    ensures DerivePair(p, seed) == (DeriveRecord(p, seed, ts).seed, DeriveRecord(p, seed, ts).uuid)
  {
  }

  /** The seed after `k` pure derivation steps from `seed`. */
  function Iterate(hash: Bytes -> Digest, seed: Bytes, k: nat): (s: Bytes)
    ensures k > 0 ==> |s| == 16
  {
    if k == 0 then seed else Derive(hash, Iterate(hash, seed, k - 1)).next
  }

  /**
   * The seed bytes chain expansion holds before its `k`th step, when it started from
   * the string `s`: every step converts the formatted next seed back into bytes.
   */
  function SeedAt(p: Primitives, s: string, k: nat): Option<Bytes> {
    if k == 0 then p.stringBytes(s)
    else match SeedAt(p, s, k - 1)
      case None => None
      case Some(b) => p.stringBytes(DerivePair(p, b).0)
  }

  /**
   * The identifier the `(i+1)`th step adds to the chain: present when the seeds before
   * and after that step both exist (the loop adds it only after converting the next seed).
   */
  function IdAt(p: Primitives, s: string, i: nat): (id: Option<string>)
    ensures id.Some? <==> SeedAt(p, s, i + 1).Some?
  {
    match SeedAt(p, s, i)
    case None => None
    case Some(b) =>
      var pair := DerivePair(p, b);
      if p.stringBytes(pair.0).Some? then Some(pair.1) else None
  }

  /** Once a conversion has failed, the chain has no later seeds. */
  lemma {:induction false} SeedAtStaysNone(p: Primitives, s: string, j: nat, k: nat)
    requires j <= k && SeedAt(p, s, j).None?
    ensures SeedAt(p, s, k).None?
    decreases k - j
  {
    if j < k {
      SeedAtStaysNone(p, s, j + 1, k);
    }
  }

  /** byte2UUIDstring followed by string2byteArray gives every 16-byte seed back. */
  ghost predicate StringRoundTrip(p: Primitives) {
    forall b: Bytes {:trigger p.uuidString(b)} :: |b| == 16 ==> p.stringBytes(p.uuidString(b)) == Some(b)
  }

  /**
   * When the conversions round-trip, chain expansion follows the pure hash chain:
   * the seed before step `k` is the start seed hashed `k` times.
   */
  lemma {:induction false} SeedAtIsHashChain(p: Primitives, s: string, start: Bytes, k: nat)
    requires StringRoundTrip(p) && p.stringBytes(s) == Some(start)
    ensures SeedAt(p, s, k) == Some(Iterate(p.hash, start, k))
  {
    if k > 0 {
      SeedAtIsHashChain(p, s, start, k - 1);
      var prev := Iterate(p.hash, start, k - 1);
      var next := Derive(p.hash, prev).next;
      assert DerivePair(p, prev).0 == p.uuidString(next);
      assert p.stringBytes(p.uuidString(next)) == Some(next);
    }
  }

  /**
   * When the conversions round-trip, every step of chain expansion succeeds and
   * identifier `i` is the second half of the digest of the start seed hashed `i` times.
   */
  lemma {:induction false} IdAtIsHashChain(p: Primitives, s: string, start: Bytes, i: nat)
    requires StringRoundTrip(p) && p.stringBytes(s) == Some(start)
    ensures SeedAt(p, s, i + 1).Some?
    ensures IdAt(p, s, i) == Some(p.uuidString(Derive(p.hash, Iterate(p.hash, start, i)).id))
  {
    SeedAtIsHashChain(p, s, start, i);
    SeedAtIsHashChain(p, s, start, i + 1);
  }

  /**
   * chainGenerateUUIDFromSeed: derives up to `n` identifiers. A failure to convert the
   * start string propagates; a failure inside the loop ends it and the identifiers
   * collected so far are returned. Identifier `i` is the one the `(i+1)`th step yields.
   */
  method ChainGenerateUuidFromSeed(p: Primitives, s: string, n: int) returns (r: Result<seq<string>, Fault>)
    ensures r.Failure? <==> SeedAt(p, s, 0).None?
    ensures r.Success? ==> if n <= 0 then r.value == [] else |r.value| <= n
    ensures r.Success? ==> forall i :: 0 <= i < |r.value| ==> IdAt(p, s, i) == Some(r.value[i])
    ensures r.Success? && n > 0 ==> (|r.value| == n <==> SeedAt(p, s, n).Some?)
    ensures r.Success? && |r.value| < n ==> SeedAt(p, s, |r.value|).Some? && SeedAt(p, s, |r.value| + 1).None?
  {
    var start := p.stringBytes(s);
    if start.None? {
      return Failure(ConversionFailed);
    }
    var seed := start.value;
    var uuids: seq<string> := [];
    while |uuids| < n
      invariant SeedAt(p, s, |uuids|) == Some(seed)
      invariant if n <= 0 then uuids == [] else |uuids| <= n
      invariant forall i :: 0 <= i < |uuids| ==> IdAt(p, s, i) == Some(uuids[i])
      decreases n - |uuids|
    {
      var record := DerivePair(p, seed);
      var next := p.stringBytes(record.0);
      if next.None? {
        SeedAtStaysNone(p, s, |uuids| + 1, n);
        return Success(uuids);
      }
      seed := next.value;
      uuids := uuids + [record.1];
    }
    return Success(uuids);
  }
}
