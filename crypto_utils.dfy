/**
 * The persisted state that CryptoUtils' static functions reach through the Android
 * Context: the seed/UUID record store and the "most recent seed" preferences. Each
 * method performs the writes of one function, awaited one after the other.
 */
module CryptoUtils {
  import opened Wrappers
  import opened Constants
  import opened SeedChain
  import opened RecordStore
  import SeedRotation
  import ExposureReport

  class Device {
    /** The rows of the record store, as getAllSortedRecords lists them (most recent first). */
    var records: seq<Record>
    /** most_recent_seed_pkey; "" when the preference is absent. */
    var headSeed: string
    /** most_recent_seed_timestamp_pkey. */
    var headTs: int

    function Snap(): Snapshot
      reads this
    {
      Snapshot(records, headSeed, headTs)
    }

    /** A fresh installation: no records, no preferences. */
    constructor ()
      ensures Snap() == Snapshot([], "", 0)
    {
      records, headSeed, headTs := [], "", 0;
    }

    /** generateInitSeed; `initSeed` is the random UUID string and `now` the clock reading. */
    method GenerateInitSeed(initSeed: string, now: int) returns (r: Option<Record>)
      modifies this
      ensures Effect(Snap(), r) == SeedRotation.InitSeed(old(Snap()), initSeed, now)
    {
      if headSeed == "" {
        headSeed, headTs := initSeed, now;
        var record := Record(now, initSeed, "");
        records := Insert(records, record);
        return Some(record);
      }
      return None;
    }

    /** generateSeedHelper(Context, seed); `now` is the clock reading. */
    method Rotate(p: Primitives, seed: Bytes, now: int) returns (r: Option<Record>)
      modifies this
      ensures Effect(Snap(), r) == SeedRotation.Rotate(p, old(Snap()), seed, now)
    {
      var dummy := DeriveRecordUntimed(p, seed);
      if records == [] {
        return None;
      }
      var mostRecent := records[0].(uuid := dummy.uuid);
      records := records[0 := mostRecent];
      var nextRecord := Record(now, dummy.seed, "");
      records := Insert(records, nextRecord);
      headSeed, headTs := dummy.seed, now;
      return Some(mostRecent);
    }

    /**
     * One iteration of generateSeed's loop: the rotation with `s` at the `i`th clock
     * reading, then the parse of the returned record's seed. `k` counts the iterations
     * still due and `last` is the record the previous iteration returned.
     */
    method RotateAndParse(p: Primitives, s: Bytes, clock: nat -> int, i: nat, ghost k: nat, ghost last: Option<Record>)
      returns (record: Option<Record>, next: Option<Bytes>)
      requires k > 0
      modifies this
      ensures next.Some? ==>
                && record.Some?
                && SeedRotation.RunRotations(p, old(Snap()), s, k, clock, i, last)
                   == SeedRotation.RunRotations(p, Snap(), next.value, k - 1, clock, i + 1, record)
      ensures next.None? ==>
                SeedRotation.RunRotations(p, old(Snap()), s, k, clock, i, last)
                  == Effect(Snap(), Failure(if record.None? then NullPointer else IllegalArgument))
    {
      ghost var before := Snap();
      record := Rotate(p, s, clock(i));
      if record.None? {
        SeedRotation.RunRotationsStopEmpty(p, before, s, k, clock, i, last, Snap());
        return record, None;
      }
      next := ParseSeed(p, record.value.seed);
      if next.None? {
        SeedRotation.RunRotationsStopParse(p, before, s, k, clock, i, last, Snap(), record.value);
      } else {
        SeedRotation.RunRotationsNext(p, before, s, k, clock, i, last, Snap(), record.value, next.value);
      }
    }

    /**
     * generateSeed; `prevBoundary` is TimeUtils' previous generation timestamp and
     * `clock(i)` the clock reading of the `i`th rotation.
     */
    method GenerateSeed(p: Primitives, cfg: Config, seed: Bytes, ts: int, prevBoundary: int, clock: nat -> int)
      returns (r: Result<Option<Record>, Fault>)
      requires cfg.Valid()
      modifies this
      ensures Effect(Snap(), r) == SeedRotation.CatchUp(p, cfg, old(Snap()), seed, ts, prevBoundary, clock)
    {
      var numSeedsToGenerate := SeedRotation.RotationCount(cfg, prevBoundary, ts);
      ghost var total: nat := if numSeedsToGenerate <= 0 then 0 else numSeedsToGenerate;
      ghost var goal := SeedRotation.RunRotations(p, Snap(), seed, total, clock, 0, None);
      var s := seed;
      var record: Option<Record> := None;
      var i: nat := 0;
      while i < numSeedsToGenerate
        invariant i <= total
        invariant goal == SeedRotation.RunRotations(p, Snap(), s, total - i, clock, i, record)
      {
        var next;
        record, next := RotateAndParse(p, s, clock, i, total - i, record);
        if next.None? {
          return Failure(if record.None? then NullPointer else IllegalArgument);
        }
        s := next.value;
        i := i + 1;
      }
      return Success(record);
    }

    /**
     * regenerateSeedUponReport; `freshSeed` is the random UUID's bytes and `prevBoundary`
     * TimeUtils' previous generation timestamp.
     */
    method RegenerateSeedUponReport(p: Primitives, cfg: Config, freshSeed: Bytes, prevBoundary: int)
      returns (r: Outcome<Fault>)
      requires cfg.Valid()
      modifies this
      ensures Effect(Snap(), r) == ExposureReport.Regenerate(p, cfg, old(Snap()), freshSeed, prevBoundary)
    {
      records := [];
      var window := ExposureReport.BuildWindow(p, cfg, freshSeed, prevBoundary);
      records := InsertAll(records, window);
      if window == [] {
        return Fail(IndexOutOfBounds);
      }
      var lastRecord := window[|window| - 1];
      headSeed, headTs := lastRecord.seed, lastRecord.ts;
      return Pass;
    }
  }
}
