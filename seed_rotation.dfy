/**
 * Bootstrap and rotation of the chain over the persisted state: the very first
 * seed, one rotation step, and the catch-up loop that runs several of them.
 */
module SeedRotation {
  import opened Wrappers
  import opened JavaInt
  import opened Constants
  import opened SeedChain
  import opened RecordStore

  /** Only the most recent record may still wait for its identifier. */
  ghost predicate OnlyNewestOpen(rs: seq<Record>) {
    forall k :: 0 < k < |rs| ==> rs[k].uuid != ""
  }

  /** The preference head names the seed and timestamp of the most recent record. */
  ghost predicate HeadIsNewest(st: Snapshot) {
    st.records != [] && st.headSeed == st.records[0].seed && st.headTs == st.records[0].ts
  }

  /** The shape the chain keeps between rotations. */
  ghost predicate Coherent(st: Snapshot) {
    Sorted(st.records) && OnlyNewestOpen(st.records) && HeadIsNewest(st)
  }

  /**
   * generateInitSeed: when no head seed is stored yet, the fresh seed becomes the head
   * and one record with an absent identifier is stored and returned; otherwise nothing
   * is written and nothing is returned.
   */
  function InitSeed(st: Snapshot, initSeed: string, now: int): (e: Effect<Option<Record>>)
    ensures st.headSeed != "" ==> e == Effect(st, None)
    ensures st.headSeed == "" ==>
              && e.out == Some(Record(now, initSeed, ""))
              && e.after.headSeed == initSeed && e.after.headTs == now
              && multiset(e.after.records) == multiset(st.records) + multiset{e.out.value}
  {
    if st.headSeed == "" then
      var record := Record(now, initSeed, "");
      InsertMultiset(st.records, record);
      Effect(Snapshot(Insert(st.records, record), initSeed, now), Some(record))
    else
      Effect(st, None)
  }

  /** A second bootstrap after a successful one writes nothing and returns nothing. */
  lemma InitSeedIdempotent(st: Snapshot, seed1: string, now1: int, seed2: string, now2: int)
    requires seed1 != ""
    ensures var first := InitSeed(st, seed1, now1).after;
            InitSeed(first, seed2, now2) == Effect(first, None)
  {
  }

  /** Bootstrapping an empty store leaves a coherent chain of one open record. */
  lemma InitSeedCoherent(seed: string, now: int)
    ensures var e := InitSeed(Snapshot([], "", 0), seed, now);
            e.after.records == [Record(now, seed, "")] && Coherent(e.after)
  {
  }

  /**
   * generateSeedHelper(Context, seed): one rotation. On an empty store nothing happens.
   * Otherwise the most recent record receives the identifier derived from `seed`, a new
   * record with the derived seed and an absent identifier is stored at `now`, the head
   * moves to that seed and time, and the filled-in record is returned.
   */
  function Rotate(p: Primitives, st: Snapshot, seed: Bytes, now: int): (e: Effect<Option<Record>>)
    ensures st.records == [] <==> e.out.None?
    ensures st.records == [] ==> e.after == st
    ensures st.records != [] ==> |e.after.records| == |st.records| + 1
    ensures st.records != [] ==>
              var d := Derive(p.hash, seed);
              var filled := st.records[0].(uuid := p.uuidString(d.id));
              && e.out == Some(filled)
              && e.after.headSeed == p.uuidString(d.next) && e.after.headTs == now
  {
    var dummy := DeriveRecordUntimed(p, seed);
    if st.records == [] then Effect(st, None)
    else
      var filled := st.records[0].(uuid := dummy.uuid);
      var next := Record(now, dummy.seed, "");
      Effect(Snapshot(Insert(st.records[0 := filled], next), dummy.seed, now), Some(filled))
  }

  /**
   * A rotation stores exactly one new record, open and carrying the derived seed, and
   * otherwise keeps every record, the most recent one with its identifier filled in.
   */
  lemma RotateRecords(p: Primitives, st: Snapshot, seed: Bytes, now: int)
    requires st.records != []
    ensures var d := Derive(p.hash, seed);
            var filled := st.records[0].(uuid := p.uuidString(d.id));
            multiset(Rotate(p, st, seed, now).after.records)
              == multiset(st.records[0 := filled]) + multiset{Record(now, p.uuidString(d.next), "")}
  {
    var d := Derive(p.hash, seed);
    InsertMultiset(st.records[0 := st.records[0].(uuid := p.uuidString(d.id))], Record(now, p.uuidString(d.next), ""));
  }

  /**
   * When the clock has not gone back, a rotation changes exactly the identifier of the
   * most recent record and puts the new record in front; all older records are untouched.
   */
  lemma RotateChangesOnlyNewest(p: Primitives, st: Snapshot, seed: Bytes, now: int)
    requires st.records != [] && now >= st.records[0].ts
    ensures var e := Rotate(p, st, seed, now);
            var d := Derive(p.hash, seed);
            && |e.after.records| == |st.records| + 1
            && e.after.records[0] == Record(now, p.uuidString(d.next), "")
            && e.after.records[1] == Record(st.records[0].ts, st.records[0].seed, p.uuidString(d.id))
            && e.after.records[2..] == st.records[1..]
  {
    var e := Rotate(p, st, seed, now);
    var filled := st.records[0].(uuid := p.uuidString(Derive(p.hash, seed).id));
    assert e.after.records == [Record(now, e.after.headSeed, "")] + st.records[0 := filled];
  }

  /**
   * A rotation keeps the chain coherent: the listing stays most recent first, the record
   * it fills in is no longer open, and the head names the new open record.
   */
  lemma {:induction false} RotateKeepsCoherent(p: Primitives, st: Snapshot, seed: Bytes, now: int)
    requires Coherent(st) && now >= st.records[0].ts
    requires p.uuidString(Derive(p.hash, seed).id) != ""
    ensures var e := Rotate(p, st, seed, now);
            Coherent(e.after) && e.after.records[0].uuid == ""
  {
    var e := Rotate(p, st, seed, now);
    RotateChangesOnlyNewest(p, st, seed, now);
    var rs := e.after.records;
    assert rs[0].ts == now;
    assert rs[1].ts == st.records[0].ts;
    forall i, j | 0 <= i < j < |rs| ensures rs[i].ts >= rs[j].ts {
      if i >= 1 {
        assert rs[j] == st.records[j - 1];
        if i >= 2 {
          assert rs[i] == st.records[i - 1];
        }
      } else {
        if j >= 2 {
          assert rs[j] == st.records[j - 1];
        }
      }
    }
    forall k | 0 < k < |rs| ensures rs[k].uuid != "" {
      if k >= 2 {
        assert rs[k] == st.records[k - 1];
      }
    }
  }

  /**
   * The number of rotations generateSeed runs: the time since `ts` divided by the
   * interval constant in minutes, rounded up, then cast to a Java `int`.
   */
  function RotationCount(cfg: Config, prevBoundary: int, ts: int): (n: int)
    requires cfg.Valid()
    ensures n > 0 <==> prevBoundary > ts
    ensures IsInt32(n)
  {
    SaturateInt32(CeilDiv(prevBoundary - ts, cfg.uuidGenerationIntervalInMinutes))
  }

  /** Within the Java `int` range the count is the exact ceiling of the quotient. */
  lemma RotationCountIsCeiling(cfg: Config, prevBoundary: int, ts: int)
    requires cfg.Valid()
    requires IsInt32(CeilDiv(prevBoundary - ts, cfg.uuidGenerationIntervalInMinutes))
    ensures var n := RotationCount(cfg, prevBoundary, ts);
            var m := cfg.uuidGenerationIntervalInMinutes;
            m * (n - 1) < prevBoundary - ts <= m * n
  {
  }

  /**
   * The difference is in milliseconds and the divisor in minutes: a head stored one
   * interval before the boundary asks for 60000 rotations.
   */
  lemma RotationCountOneIntervalLate(cfg: Config, ts: int)
    requires cfg.Valid() && cfg.uuidGenerationIntervalInMinutes == 15
    ensures RotationCount(cfg, ts + 15 * 60 * 1000, ts) == 60000
  {
  }

  /**
   * The loop of generateSeed from iteration `i` on, with `k` iterations to go: each
   * iteration rotates with the current seed, and the next seed is the seed of the record
   * that rotation returned. A missing record or an unparsable seed string aborts.
   */
  function RunRotations(p: Primitives, st: Snapshot, s: Bytes, k: nat, clock: nat -> int, i: nat,
                        last: Option<Record>): (e: Effect<Result<Option<Record>, Fault>>)
    ensures k == 0 ==> e == Effect(st, Success(last))
    ensures e.out.Success? ==> |e.after.records| == |st.records| + k
    ensures e.out.Success? && k > 0 ==> e.out.value.Some?
    decreases k
  {
    if k == 0 then Effect(st, Success(last))
    else
      var step := Rotate(p, st, s, clock(i));
      match step.out
      case None => Effect(step.after, Failure(NullPointer))
      case Some(record) =>
        match ParseSeed(p, record.seed)
        case None => Effect(step.after, Failure(IllegalArgument))
        case Some(next) => RunRotations(p, step.after, next, k - 1, clock, i + 1, Some(record))
  }

  /** An iteration of the generateSeed loop whose rotation returns a record with a parsable seed. */
  lemma RunRotationsNext(p: Primitives, st: Snapshot, s: Bytes, k: nat, clock: nat -> int, i: nat,
                         last: Option<Record>, after: Snapshot, record: Record, next: Bytes)
    requires k > 0 && Rotate(p, st, s, clock(i)) == Effect(after, Some(record))
    requires ParseSeed(p, record.seed) == Some(next)
    ensures RunRotations(p, st, s, k, clock, i, last) == RunRotations(p, after, next, k - 1, clock, i + 1, Some(record))
  {
  }

  /** An iteration whose rotation finds the store empty: getSeed on null throws. */
  lemma RunRotationsStopEmpty(p: Primitives, st: Snapshot, s: Bytes, k: nat, clock: nat -> int, i: nat,
                              last: Option<Record>, after: Snapshot)
    requires k > 0 && Rotate(p, st, s, clock(i)) == Effect(after, None)
    ensures RunRotations(p, st, s, k, clock, i, last) == Effect(after, Failure(NullPointer))
  {
  }

  /** An iteration whose returned record's seed does not parse: UUID.fromString throws. */
  lemma RunRotationsStopParse(p: Primitives, st: Snapshot, s: Bytes, k: nat, clock: nat -> int, i: nat,
                              last: Option<Record>, after: Snapshot, record: Record)
    requires k > 0 && Rotate(p, st, s, clock(i)) == Effect(after, Some(record))
    requires ParseSeed(p, record.seed) == None
    ensures RunRotations(p, st, s, k, clock, i, last) == Effect(after, Failure(IllegalArgument))
  {
  }

  /**
   * generateSeed: runs RotationCount rotations; when none is due nothing changes and
   * null is returned, otherwise the record the last rotation returned.
   */
  function CatchUp(p: Primitives, cfg: Config, st: Snapshot, seed: Bytes, ts: int,
                  prevBoundary: int, clock: nat -> int): (e: Effect<Result<Option<Record>, Fault>>)
    requires cfg.Valid()
    ensures prevBoundary <= ts ==> e == Effect(st, Success(None))
    ensures e.out == Success(None) ==> prevBoundary <= ts
    ensures var n := RotationCount(cfg, prevBoundary, ts);
            e.out.Success? ==> |e.after.records| == |st.records| + (if n <= 0 then 0 else n)
  {
    var n := RotationCount(cfg, prevBoundary, ts);
    RunRotations(p, st, seed, if n <= 0 then 0 else n, clock, 0, None)
  }

  /** Every record's seed string parses back to seed bytes. */
  ghost predicate SeedsParse(p: Primitives, rs: seq<Record>) {
    forall k :: 0 <= k < |rs| ==> ParseSeed(p, rs[k].seed).Some?
  }

  /** Every formatted seed parses back. */
  ghost predicate FormattedSeedsParse(p: Primitives) {
    forall b: Bytes {:trigger p.uuidString(b)} :: ParseSeed(p, p.uuidString(b)).Some?
  }

  lemma RotateKeepsSeedsParse(p: Primitives, st: Snapshot, seed: Bytes, now: int)
    requires st.records != [] && SeedsParse(p, st.records) && FormattedSeedsParse(p)
    ensures SeedsParse(p, Rotate(p, st, seed, now).after.records)
  {
    var d := Derive(p.hash, seed);
    var filled := st.records[0].(uuid := p.uuidString(d.id));
    var updated := st.records[0 := filled];
    var rs := Rotate(p, st, seed, now).after.records;
    RotateRecords(p, st, seed, now);
    assert ParseSeed(p, filled.seed).Some?;
    forall k | 0 <= k < |rs| ensures ParseSeed(p, rs[k].seed).Some? {
      assert rs[k] in multiset(rs);
      if rs[k] != Record(now, p.uuidString(d.next), "") {
        assert rs[k] in multiset(updated);
        var j :| 0 <= j < |updated| && updated[j] == rs[k];
        assert j == 0 || updated[j] == st.records[j];
      }
    }
  }

  /**
   * On a non-empty store whose seed strings parse, every due rotation runs: the loop
   * returns the last filled-in record and the store grows by exactly one record per rotation.
   */
  lemma {:induction false} RunRotationsComplete(p: Primitives, st: Snapshot, s: Bytes, k: nat,
                                                clock: nat -> int, i: nat, last: Option<Record>)
    requires st.records != [] && SeedsParse(p, st.records) && FormattedSeedsParse(p)
    ensures var e := RunRotations(p, st, s, k, clock, i, last);
            e.out.Success? && |e.after.records| == |st.records| + k && (k > 0 ==> e.out.value.Some?)
    decreases k
  {
    if k > 0 {
      var step := Rotate(p, st, s, clock(i));
      RotateKeepsSeedsParse(p, st, s, clock(i));
      var record := step.out.value;
      assert record.seed == st.records[0].seed;
      var next := ParseSeed(p, record.seed).value;
      assert |step.after.records| == |st.records| + 1;
      RunRotationsComplete(p, step.after, next, k - 1, clock, i + 1, Some(record));
    }
  }

  /**
   * On a non-empty store whose seed strings parse, generateSeed runs every due rotation:
   * it succeeds, adds exactly RotationCount records (none when the count is not positive),
   * and returns a record whenever one rotation was due.
   */
  lemma CatchUpComplete(p: Primitives, cfg: Config, st: Snapshot, seed: Bytes, ts: int,
                        prevBoundary: int, clock: nat -> int)
    requires cfg.Valid()
    requires st.records != [] && SeedsParse(p, st.records) && FormattedSeedsParse(p)
    ensures var n := RotationCount(cfg, prevBoundary, ts);
            var e := CatchUp(p, cfg, st, seed, ts, prevBoundary, clock);
            && e.out.Success?
            && |e.after.records| == |st.records| + (if n <= 0 then 0 else n)
            && (prevBoundary > ts <==> e.out.value.Some?)
  {
    var n := RotationCount(cfg, prevBoundary, ts);
    RunRotationsComplete(p, st, seed, if n <= 0 then 0 else n, clock, 0, None);
  }

  /**
   * The seed fed into the second rotation is the seed of the record the first one
   * returned, which is the record it filled in, not the one it created. Started from the
   * head record's own seed, two rotations therefore derive from the same seed: the two
   * newest records share a seed and the two records filled in share an identifier.
   */
  lemma RotationsRepeatReturnedSeed(p: Primitives, st: Snapshot, seed: Bytes, clock: nat -> int)
    requires st.records != [] && ParseSeed(p, st.records[0].seed) == Some(seed)
    requires clock(0) >= st.records[0].ts && clock(1) >= clock(0)
    ensures var rs := RunRotations(p, st, seed, 2, clock, 0, None).after.records;
            |rs| == |st.records| + 2 && rs[0].seed == rs[1].seed && rs[1].uuid == rs[2].uuid
  {
    var first := Rotate(p, st, seed, clock(0));
    RotateChangesOnlyNewest(p, st, seed, clock(0));
    assert first.out.value.seed == st.records[0].seed;
    RotateChangesOnlyNewest(p, first.after, seed, clock(1));
    var second := Rotate(p, first.after, seed, clock(1));
    assert RunRotations(p, st, seed, 2, clock, 0, None) == RunRotations(p, first.after, seed, 1, clock, 1, first.out);
    assert RunRotations(p, first.after, seed, 1, clock, 1, first.out).after == second.after;
  }
}
