/**
 * Regeneration of the chain on an exposure report: the store is wiped and a whole
 * infection window of timestamped records is rebuilt, exactly as the code computes it.
 */
module ExposureReport {
  import opened Wrappers
  import opened JavaInt
  import opened Constants
  import opened SeedChain
  import opened RecordStore

  /** generationIntervalsInInfectionWindow: `int` arithmetic, truncating division. */
  function GenerationIntervals(cfg: Config): (n: int)
    requires cfg.Valid()
    ensures IsInt32(n)
  {
    var infectionWindowInMinutes := Wrap32(60 * 24 * cfg.infectionWindowInDays);
    DivTrunc(infectionWindowInMinutes, cfg.uuidGenerationIntervalInMinutes)
  }

  /** infectionWindowInMilliseconds: an `int`, so it wraps for windows of 25 days or more. */
  function WindowMillis(cfg: Config): (ms: int)
    ensures IsInt32(ms)
    ensures 0 <= cfg.infectionWindowInDays <= 24 ==> ms == 86_400_000 * cfg.infectionWindowInDays
  {
    Wrap32(1000 * 60 * 60 * 24 * cfg.infectionWindowInDays)
  }

  /**
   * The records the loop builds: one per generation interval, all derived from the same
   * fresh seed, timestamped from the window start on in steps of the interval constant in seconds, used as milliseconds.
   */
  function WindowRecords(p: Primitives, cfg: Config, seed: Bytes, prevBoundary: int): (rs: seq<Record>)
    requires cfg.Valid()
    ensures |rs| == if GenerationIntervals(cfg) < 0 then 0 else GenerationIntervals(cfg)
    ensures forall i :: 0 <= i < |rs| ==>
              rs[i] == DeriveRecord(p, seed, prevBoundary - WindowMillis(cfg) + i * cfg.uuidGenerationIntervalInSeconds)
  {
    var n := GenerationIntervals(cfg);
    var count := if n < 0 then 0 else n;
    seq(count, i requires 0 <= i < count =>
      DeriveRecord(p, seed, prevBoundary - WindowMillis(cfg) + i * cfg.uuidGenerationIntervalInSeconds))
  }

  /** The loop of regenerateSeedUponReport that builds the list of records. */
  method BuildWindow(p: Primitives, cfg: Config, seed: Bytes, prevBoundary: int) returns (records: seq<Record>)
    requires cfg.Valid()
    ensures records == WindowRecords(p, cfg, seed, prevBoundary)
  {
    var generationIntervals := GenerationIntervals(cfg);
    var start := prevBoundary - WindowMillis(cfg);
    var ti := start;
    var interval := cfg.uuidGenerationIntervalInSeconds;
    records := [];
    var i := 0;
    while i < generationIntervals
      invariant 0 <= i && (generationIntervals >= 0 ==> i <= generationIntervals)
      invariant generationIntervals < 0 ==> i == 0
      invariant |records| == i
      invariant ti == start + i * interval
      invariant forall k :: 0 <= k < i ==> records[k] == DeriveRecord(p, seed, start + k * interval)
    {
      records := records + [DeriveRecord(p, seed, ti)];
      ti := ti + interval;
      i := i + 1;
    }
  }

  /**
   * regenerateSeedUponReport: the store is emptied, the window's records are inserted as
   * one batch, and the head moves to the last of them. With no records the lookup of the
   * last one throws, after the store was already wiped.
   */
  function Regenerate(p: Primitives, cfg: Config, st: Snapshot, freshSeed: Bytes, prevBoundary: int)
    : (e: Effect<Outcome<Fault>>)
    requires cfg.Valid()
    ensures var rs := WindowRecords(p, cfg, freshSeed, prevBoundary);
            && e.after.records == Reverse(rs)
            && (e.out.Pass? <==> rs != [])
            && (e.out.Pass? ==> e.after.headSeed == rs[|rs| - 1].seed && e.after.headTs == rs[|rs| - 1].ts)
            && (e.out.Fail? ==> e.out.error == IndexOutOfBounds &&
                                e.after.headSeed == st.headSeed && e.after.headTs == st.headTs)
  {
    var records := WindowRecords(p, cfg, freshSeed, prevBoundary);
    WindowAscending(p, cfg, freshSeed, prevBoundary);
    InsertAllAscending([], records);
    var store := InsertAll([], records);
    if records == [] then
      Effect(Snapshot(store, st.headSeed, st.headTs), Fail(IndexOutOfBounds))
    else
      var lastRecord := records[|records| - 1];
      Effect(Snapshot(store, lastRecord.seed, lastRecord.ts), Pass)
  }

  /** Timestamps strictly increase by the interval constant from one record to the next. */
  lemma {:induction false} WindowSpacing(p: Primitives, cfg: Config, seed: Bytes, prevBoundary: int, i: nat)
    requires cfg.Valid()
    requires i + 1 < |WindowRecords(p, cfg, seed, prevBoundary)|
    ensures var rs := WindowRecords(p, cfg, seed, prevBoundary);
            rs[i + 1].ts == rs[i].ts + cfg.uuidGenerationIntervalInSeconds && rs[i].ts < rs[i + 1].ts
  {
    var rs := WindowRecords(p, cfg, seed, prevBoundary);
    var start := prevBoundary - WindowMillis(cfg);
    var c := cfg.uuidGenerationIntervalInSeconds;
    assert rs[i].ts == start + i * c && rs[i + 1].ts == start + (i + 1) * c;
    assert (i + 1) * c == i * c + c;
  }

  lemma {:induction false} WindowAscending(p: Primitives, cfg: Config, seed: Bytes, prevBoundary: int)
    requires cfg.Valid()
    ensures Ascending(WindowRecords(p, cfg, seed, prevBoundary))
  {
    var rs := WindowRecords(p, cfg, seed, prevBoundary);
    var start := prevBoundary - WindowMillis(cfg);
    var c := cfg.uuidGenerationIntervalInSeconds;
    forall i, j | 0 <= i < j < |rs| ensures rs[i].ts <= rs[j].ts {
      assert rs[i].ts == start + i * c && rs[j].ts == start + j * c;
      MulDistance(i, j, c);
    }
  }

  lemma {:induction false} MulDistance(i: int, j: int, c: int)
    requires i <= j && c > 0
    ensures i * c <= j * c
    decreases j - i
  {
    if i < j {
      MulDistance(i + 1, j, c);
      assert (i + 1) * c == i * c + c;
    }
  }

  /**
   * Within the range the constants are meant for (no `int` overflow), the window holds
   * (60 * 24 * days) / intervalMinutes records, the first at prevBoundary minus the window.
   */
  lemma WindowShape(p: Primitives, cfg: Config, seed: Bytes, prevBoundary: int)
    requires cfg.Valid() && 0 <= cfg.infectionWindowInDays <= 24
    ensures var rs := WindowRecords(p, cfg, seed, prevBoundary);
            && |rs| == (60 * 24 * cfg.infectionWindowInDays) / cfg.uuidGenerationIntervalInMinutes
            && (rs != [] ==> rs[0].ts == prevBoundary - 86_400_000 * cfg.infectionWindowInDays)
  {
  }

  /**
   * The seed is never advanced inside the loop: every record carries the seed and
   * identifier of one derivation step from the fresh seed.
   */
  lemma WindowSamePair(p: Primitives, cfg: Config, seed: Bytes, prevBoundary: int, i: nat)
    requires cfg.Valid() && i < |WindowRecords(p, cfg, seed, prevBoundary)|
    ensures var r := WindowRecords(p, cfg, seed, prevBoundary)[i];
            && r.seed == p.uuidString(Derive(p.hash, seed).next)
            && r.uuid == p.uuidString(Derive(p.hash, seed).id)
  {
  }

  /** A 14-day window at a 15-minute interval holds 1344 records. */
  lemma GoldenWindowSize(p: Primitives, seed: Bytes, prevBoundary: int, seconds: int)
    requires seconds > 0
    ensures |WindowRecords(p, Config(14, 15, seconds), seed, prevBoundary)| == 1344
  {
  }

  /**
   * Because the interval is added in seconds where milliseconds are meant, a 14-day window
   * at 15 minutes (900 seconds) ends about 14 days before prevBoundary, not at it.
   */
  lemma GoldenWindowEnd(p: Primitives, seed: Bytes, prevBoundary: int)
    ensures var rs := WindowRecords(p, Config(14, 15, 900), seed, prevBoundary);
            |rs| == 1344 && rs[1343].ts == prevBoundary - 1_208_391_300
  {
  }

  /**
   * After a successful regeneration the listing is most recent first, the head names the
   * most recent record, every record has its identifier, and all of them share one seed.
   */
  lemma {:induction false} RegenerateResult(p: Primitives, cfg: Config, st: Snapshot, freshSeed: Bytes, prevBoundary: int)
    requires cfg.Valid()
    requires Regenerate(p, cfg, st, freshSeed, prevBoundary).out.Pass?
    ensures var after := Regenerate(p, cfg, st, freshSeed, prevBoundary).after;
            && Sorted(after.records)
            && after.records != [] && after.headSeed == after.records[0].seed && after.headTs == after.records[0].ts
            && |after.records| == |WindowRecords(p, cfg, freshSeed, prevBoundary)|
            && forall k :: 0 <= k < |after.records| ==>
                 after.records[k].uuid == p.uuidString(Derive(p.hash, freshSeed).id) &&
                 after.records[k].seed == p.uuidString(Derive(p.hash, freshSeed).next)
  {
    var rs := WindowRecords(p, cfg, freshSeed, prevBoundary);
    var after := Regenerate(p, cfg, st, freshSeed, prevBoundary).after;
    assert after.records == Reverse(rs);
    WindowAscending(p, cfg, freshSeed, prevBoundary);
    InsertAllAscending([], rs);
    InsertAllSorted([], rs);
    assert Reverse(rs) + [] == Reverse(rs);
    assert Sorted(after.records);
    ReverseAt(rs, 0);
    forall k | 0 <= k < |after.records|
      ensures after.records[k].uuid == p.uuidString(Derive(p.hash, freshSeed).id)
      ensures after.records[k].seed == p.uuidString(Derive(p.hash, freshSeed).next)
    {
      ReverseAt(rs, k);
    }
  }
}
