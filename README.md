# Seed/UUID hash chain of the contact-tracing app, in Dafny

This project models the seed and identifier chain that the Android app's `CryptoUtils` class keeps.
It also proves properties of that model.

- **Derivation step.** One step hashes a 16-byte seed with SHA-256 and splits the 32-byte digest.
  - The first half becomes the next seed.
  - The second half becomes the identifier the phone broadcasts.
  - Both halves are formatted as UUID strings.
- **Chain expansion** (`chainGenerateUUIDFromSeed`). It replays the chain from a seed string and collects the identifiers.
- **Persisted state.** The app keeps a record store and a "most recent seed" preference head.
  - Each record holds a timestamp, a seed and an identifier.
  - The store is listed most recent first.
- **Operations on that state:**
  - bootstrap (`generateInitSeed`);
  - one rotation (`generateSeedHelper(Context, seed)`);
  - the catch-up loop (`generateSeed`);
  - the rebuild of a whole infection window after an exposure report (`regenerateSeedUponReport`).
- **At-rest encryption of cached secrets:**
  - `keyInit` creates a key under a fixed alias only when the alias is absent;
  - `encrypt` and `decrypt` choose AES or RSA by platform version, and fall back to `""` on failure.

Module layout:

- `SeedChain` holds the derivation step and chain expansion.
- `RecordStore` holds the ordered store.
- `SeedRotation` holds bootstrap, rotation and catch-up.
- `ExposureReport` holds the regeneration.
- `CryptoUtils.Device` holds the state.
  - It is a class whose fields are the store rows and the two preferences.
  - Its methods perform each operation's writes.
  - Each method is proved equal to a function over a `Snapshot` of that state, and the lemmas are stated about those functions.
- `AtRestCipher` holds `keyInit`, `encrypt` and `decrypt`. Its `KeyVault` class stands for the static key store.
- `JavaInt` holds Java's `int` arithmetic: wrap-around, truncating division, and the saturating `(int)` cast.
- `Constants` holds the configuration constants.

Parameters stand in for the platform:

- SHA-256, `ByteUtils.byte2UUIDstring`, `ByteUtils.uuid2bytes(UUID.fromString(..))` and `ByteUtils.string2byteArray` are function-valued fields of `SeedChain.Primitives`.
  - The digest always has 32 bytes.
  - A conversion returns `None` where the Java call throws.
- `UUID.randomUUID()` becomes the `initSeed` / `freshSeed` parameters.
- `System.currentTimeMillis()` becomes `now`, and `clock(i)` for the i-th rotation of the loop.
- `TimeUtils.getPreviousGenerationTimestamp` becomes `prevBoundary`.
- The constants `InfectionWindowInDays`, `UUIDGenerationIntervalInMinutes` and `UUIDGenerationIntervalInSeconds` are the fields of `Constants.Config`.
  - `Config.Valid` asks for positive intervals and a window length that is a Java `int`. These are properties of the app's fixed constants.

The code is modelled as written, including three behaviours that look unintended. Each is listed with its source lines and the lemma that exhibits it:

1. Lines 154-155 with 172 and 191: each rotation of `generateSeed` continues from the seed of the record the previous rotation *returned*.
   - That is the record it filled in, not the one it created, so two rotations derive from the same seed.
   - The design intent is a chain that advances one step per rotation.
   - Lemma: `SeedRotation.RotationsRepeatReturnedSeed`.
2. Line 149: the rotation count divides a millisecond difference by an interval in minutes.
   - A head one interval late asks for 60000 rotations.
   - Lemma: `SeedRotation.RotationCountOneIntervalLate`.
3. Lines 80, 89 and 93-94: regeneration steps timestamps by the interval in seconds, used as milliseconds, and hashes the fresh seed again and again without advancing it.
   - The window ends about two weeks before `prevBoundary`: lemma `ExposureReport.GoldenWindowEnd`.
   - Every record carries the same pair: lemma `ExposureReport.WindowSamePair`.

The store is listed most recent first, because the code reads `records.get(0)` as the most recent record. Saving a record that is already stored replaces it in place.

## Model

| member | source | states |
|---|---|---|
| SeedChain.Derive | app/src/main/java/edu/uw/covidsafe/utils/CryptoUtils.java:114-118 | both halves have 16 bytes and together they are the digest of the seed, next seed first |
| SeedChain.DeriveRecord | app/src/main/java/edu/uw/covidsafe/utils/CryptoUtils.java:114-123 | the record has the given timestamp, seed = formatted digest bytes 0..15, identifier = formatted digest bytes 16..31 |
| SeedChain.DeriveRecordUntimed | app/src/main/java/edu/uw/covidsafe/utils/CryptoUtils.java:126-135 | the same split and formatting, at timestamp 0 |
| SeedChain.DerivePair | app/src/main/java/edu/uw/covidsafe/utils/CryptoUtils.java:137-144 | the pair is {formatted bytes 0..15, formatted bytes 16..31} of the digest |
| SeedChain.HelpersAgree | app/src/main/java/edu/uw/covidsafe/utils/CryptoUtils.java:114-144 | the three helpers derive the same seed and identifier; only the timestamp differs |
| SeedChain.ParseSeed | app/src/main/java/edu/uw/covidsafe/utils/CryptoUtils.java:155 | the returned seed string converted back to bytes (UUID.fromString, then uuid2bytes); None where either call throws |
| SeedChain.IdAt | app/src/main/java/edu/uw/covidsafe/utils/CryptoUtils.java:203-207 | step i contributes an identifier exactly when the seed after that step converts |
| SeedChain.SeedAt | app/src/main/java/edu/uw/covidsafe/utils/CryptoUtils.java:200-205 | the seed bytes the chain loop holds before step k; None from the first conversion that fails |
| SeedChain.SeedAtStaysNone | app/src/main/java/edu/uw/covidsafe/utils/CryptoUtils.java:202-211 | once a conversion fails, no later step of the chain has a seed |
| SeedChain.SeedAtIsHashChain | app/src/main/java/edu/uw/covidsafe/utils/CryptoUtils.java:199-207 | when formatting and conversion round-trip, the seed before step k is the start seed hashed k times |
| SeedChain.IdAtIsHashChain | app/src/main/java/edu/uw/covidsafe/utils/CryptoUtils.java:199-207 | when formatting and conversion round-trip, every step succeeds and identifier i is the second digest half of the start seed hashed i times |
| SeedChain.ChainGenerateUuidFromSeed | app/src/main/java/edu/uw/covidsafe/utils/CryptoUtils.java:199-213 | failure exactly when the start string does not convert; at most n identifiers, none for n <= 0; identifier i is the one step i+1 yields, so the result is a prefix of the chain; exactly n iff the chain reaches step n; a shorter result stops where a conversion failed |
| RecordStore.Insert | app/src/main/java/edu/uw/covidsafe/utils/CryptoUtils.java:168-172 | one more row; a row at least as recent as the current first row goes in front |
| RecordStore.InsertMultiset | app/src/main/java/edu/uw/covidsafe/utils/CryptoUtils.java:174-183 | inserting adds exactly the new row and keeps every other row |
| RecordStore.InsertSorted | app/src/main/java/edu/uw/covidsafe/utils/CryptoUtils.java:168-172 | inserting keeps the listing most recent first |
| RecordStore.InsertAll | app/src/main/java/edu/uw/covidsafe/utils/CryptoUtils.java:96 | a bulk insert adds exactly the batch's rows |
| RecordStore.InsertAllSorted | app/src/main/java/edu/uw/covidsafe/utils/CryptoUtils.java:96 | a bulk insert keeps the listing most recent first |
| RecordStore.InsertAllAscending | app/src/main/java/edu/uw/covidsafe/utils/CryptoUtils.java:91-96 | an ascending batch no older than the listing ends up in reverse order in front of it |
| SeedRotation.InitSeed | app/src/main/java/edu/uw/covidsafe/utils/CryptoUtils.java:48-69 | with a head seed present nothing changes and null is returned; otherwise the head becomes (initSeed, now) and exactly the record (now, initSeed, "") is added and returned |
| SeedRotation.InitSeedIdempotent | app/src/main/java/edu/uw/covidsafe/utils/CryptoUtils.java:54-55 | a second bootstrap after a successful one writes nothing and returns null |
| SeedRotation.InitSeedCoherent | app/src/main/java/edu/uw/covidsafe/utils/CryptoUtils.java:48-69 | bootstrapping a fresh install leaves one open record that the head names |
| SeedRotation.Rotate | app/src/main/java/edu/uw/covidsafe/utils/CryptoUtils.java:161-197 | on an empty store: null and no change; otherwise one more record, the returned record is the most recent one with the derived identifier, and the head becomes (derived seed, now) |
| SeedRotation.RotateRecords | app/src/main/java/edu/uw/covidsafe/utils/CryptoUtils.java:172-183 | the store afterwards holds exactly the old rows, the first with its identifier filled in, plus the open row (now, derived seed, "") |
| SeedRotation.RotateChangesOnlyNewest | app/src/main/java/edu/uw/covidsafe/utils/CryptoUtils.java:172-183 | when the clock has not gone back: the new open record comes first, then the old newest record with only its identifier changed, then all older records unchanged |
| SeedRotation.RotateKeepsCoherent | app/src/main/java/edu/uw/covidsafe/utils/CryptoUtils.java:161-191 | a rotation keeps the store most recent first, keeps only the newest record open, and keeps the head naming it |
| SeedRotation.RotationCount | app/src/main/java/edu/uw/covidsafe/utils/CryptoUtils.java:149 | at least one rotation exactly when prevBoundary > ts; the count is a Java int |
| SeedRotation.RotationCountIsCeiling | app/src/main/java/edu/uw/covidsafe/utils/CryptoUtils.java:149 | within the int range the count is the exact ceiling of (prevBoundary - ts) / minutes |
| SeedRotation.RotationCountOneIntervalLate | app/src/main/java/edu/uw/covidsafe/utils/CryptoUtils.java:149 | a head one 15-minute interval late asks for 60000 rotations (milliseconds divided by minutes) |
| SeedRotation.RunRotations | app/src/main/java/edu/uw/covidsafe/utils/CryptoUtils.java:151-157 | no iterations leave the store untouched and return the last record; a successful run of k rotations adds k records and returns a record |
| SeedRotation.RunRotationsNext | app/src/main/java/edu/uw/covidsafe/utils/CryptoUtils.java:154-155 | an iteration continues with the parsed seed of the record its rotation returned |
| SeedRotation.RunRotationsStopEmpty | app/src/main/java/edu/uw/covidsafe/utils/CryptoUtils.java:154-155 | a rotation on an empty store returns null, and reading its seed throws |
| SeedRotation.RunRotationsStopParse | app/src/main/java/edu/uw/covidsafe/utils/CryptoUtils.java:155 | a returned seed that does not parse aborts the loop after that rotation's writes |
| SeedRotation.CatchUp | app/src/main/java/edu/uw/covidsafe/utils/CryptoUtils.java:146-158 | no rotation is due exactly when prevBoundary <= ts, and then nothing changes and null is returned; a success adds max(0, RotationCount) records |
| SeedRotation.RotateKeepsSeedsParse | app/src/main/java/edu/uw/covidsafe/utils/CryptoUtils.java:155 | if every stored seed string and every formatted seed parses, that stays so after a rotation |
| SeedRotation.RunRotationsComplete | app/src/main/java/edu/uw/covidsafe/utils/CryptoUtils.java:151-157 | on a non-empty store whose seeds parse, all k rotations run, k records are added and a record is returned |
| SeedRotation.CatchUpComplete | app/src/main/java/edu/uw/covidsafe/utils/CryptoUtils.java:146-158 | on a non-empty store whose seeds parse, generateSeed succeeds, adds max(0, RotationCount) records, and returns a record exactly when prevBoundary > ts |
| SeedRotation.RotationsRepeatReturnedSeed | app/src/main/java/edu/uw/covidsafe/utils/CryptoUtils.java:153-155 | started from the head record's seed, two rotations give the two newest records the same seed and the two filled-in records the same identifier |
| JavaInt.Wrap32 | app/src/main/java/edu/uw/covidsafe/utils/CryptoUtils.java:81-84 | the result is a Java int congruent to the exact value modulo 2^32, and equal to it when it fits |
| JavaInt.DivTrunc | app/src/main/java/edu/uw/covidsafe/utils/CryptoUtils.java:82 | the quotient is rounded toward zero, for both signs of the dividend |
| JavaInt.CeilDiv | app/src/main/java/edu/uw/covidsafe/utils/CryptoUtils.java:149 | the result is the least r with d <= m * r; it is positive exactly when d is |
| JavaInt.SaturateInt32 | app/src/main/java/edu/uw/covidsafe/utils/CryptoUtils.java:149 | the (int) cast keeps values in range and clamps the others to the nearest bound |
| ExposureReport.GenerationIntervals | app/src/main/java/edu/uw/covidsafe/utils/CryptoUtils.java:81-82 | the count is a Java int |
| ExposureReport.WindowMillis | app/src/main/java/edu/uw/covidsafe/utils/CryptoUtils.java:84 | a Java int, equal to 86,400,000 ms per day for windows of 0 to 24 days |
| ExposureReport.WindowRecords | app/src/main/java/edu/uw/covidsafe/utils/CryptoUtils.java:86-95 | one record per generation interval (none for a negative count); record i is derived from the fresh seed at prevBoundary - window + i times the interval constant in seconds, added as milliseconds (line 89) |
| ExposureReport.BuildWindow | app/src/main/java/edu/uw/covidsafe/utils/CryptoUtils.java:86-95 | the loop builds exactly WindowRecords |
| ExposureReport.Regenerate | app/src/main/java/edu/uw/covidsafe/utils/CryptoUtils.java:71-112 | the store is replaced by the window, newest first; success iff the window is non-empty; the head then names the last record built; otherwise lookup fails with the store wiped and the head kept |
| ExposureReport.WindowSpacing | app/src/main/java/edu/uw/covidsafe/utils/CryptoUtils.java:89-94 | consecutive timestamps increase strictly, by exactly the interval constant in seconds, used as milliseconds |
| ExposureReport.WindowAscending | app/src/main/java/edu/uw/covidsafe/utils/CryptoUtils.java:92-95 | the timestamps of the window never decrease |
| ExposureReport.WindowShape | app/src/main/java/edu/uw/covidsafe/utils/CryptoUtils.java:81-87 | for 0 to 24 days: (60·24·days) / minutes records, the first at prevBoundary - 86,400,000·days |
| ExposureReport.WindowSamePair | app/src/main/java/edu/uw/covidsafe/utils/CryptoUtils.java:80-93 | every record carries the seed and identifier of one step from the fresh seed |
| ExposureReport.GoldenWindowSize | app/src/main/java/edu/uw/covidsafe/utils/CryptoUtils.java:81-82 | 14 days at 15 minutes give 1344 records |
| ExposureReport.GoldenWindowEnd | app/src/main/java/edu/uw/covidsafe/utils/CryptoUtils.java:84-94 | with 14 days, 15 minutes and 900 seconds, the last record lies 1,208,391,300 ms before prevBoundary |
| ExposureReport.RegenerateResult | app/src/main/java/edu/uw/covidsafe/utils/CryptoUtils.java:91-107 | after success: the store is sorted, the head names its first record, it holds one record per interval, and all records share one seed and identifier |
| CryptoUtils.Device.constructor | app/src/main/java/edu/uw/covidsafe/utils/CryptoUtils.java:54 | a fresh install has no records and no head seed |
| CryptoUtils.Device.GenerateInitSeed | app/src/main/java/edu/uw/covidsafe/utils/CryptoUtils.java:48-69 | the writes are exactly InitSeed's |
| CryptoUtils.Device.Rotate | app/src/main/java/edu/uw/covidsafe/utils/CryptoUtils.java:161-197 | the writes and result are exactly Rotate's |
| CryptoUtils.Device.RotateAndParse | app/src/main/java/edu/uw/covidsafe/utils/CryptoUtils.java:154-155 | one loop iteration: when the returned seed parses, the rest of the run continues from it one step later; otherwise the run ends with that NullPointer or IllegalArgument fault |
| CryptoUtils.Device.GenerateSeed | app/src/main/java/edu/uw/covidsafe/utils/CryptoUtils.java:146-158 | the loop's writes and result are exactly CatchUp's |
| CryptoUtils.Device.RegenerateSeedUponReport | app/src/main/java/edu/uw/covidsafe/utils/CryptoUtils.java:71-107 | the writes and outcome are exactly Regenerate's |
| AtRestCipher.StrategyFor | app/src/main/java/edu/uw/covidsafe/utils/CryptoUtils.java:236-240 | AES exactly when the SDK is at least M (23) |
| AtRestCipher.AfterKeyInit | app/src/main/java/edu/uw/covidsafe/utils/CryptoUtils.java:227-246 | a present alias means no change; the alias is present afterwards iff it was before or the store loaded and generation succeeded; any change adds the alias and one key of the version's strategy |
| AtRestCipher.KeyInitIdempotent | app/src/main/java/edu/uw/covidsafe/utils/CryptoUtils.java:233 | once the alias exists, a further keyInit changes nothing |
| AtRestCipher.AfterKeyInits | app/src/main/java/edu/uw/covidsafe/utils/CryptoUtils.java:227-246 | repeated calls never remove a key |
| AtRestCipher.KeyGeneratedAtMostOnce | app/src/main/java/edu/uw/covidsafe/utils/CryptoUtils.java:233-241 | any number of calls generate at most one key, none when the alias was present, and keep the earlier keys |
| AtRestCipher.Select | app/src/main/java/edu/uw/covidsafe/utils/CryptoUtils.java:250-254 | the AES cipher for SDK at least M, RSA otherwise |
| AtRestCipher.Encrypt | app/src/main/java/edu/uw/covidsafe/utils/CryptoUtils.java:262-274 | the selected cipher's result, or "" when it throws |
| AtRestCipher.Decrypt | app/src/main/java/edu/uw/covidsafe/utils/CryptoUtils.java:248-260 | the selected cipher's result, or "" when it throws |
| AtRestCipher.DecryptFailureLooksEmpty | app/src/main/java/edu/uw/covidsafe/utils/CryptoUtils.java:256-259 | a decryption that throws gives the same "" as one that yields an empty plaintext |
| AtRestCipher.RoundTripWhenNoFailure | app/src/main/java/edu/uw/covidsafe/utils/CryptoUtils.java:248-274 | encrypt and decrypt take the same branch, so a cipher that inverts its own successful encryption round-trips through them |
| AtRestCipher.KeyVault.constructor | app/src/main/java/edu/uw/covidsafe/utils/CryptoUtils.java:227 | the store starts with the given aliases and no generated key |
| AtRestCipher.KeyVault.KeyInit | app/src/main/java/edu/uw/covidsafe/utils/CryptoUtils.java:227-246 | the change to the key store is exactly AfterKeyInit's |

## Left out

- SHA-256 and the ByteUtils conversions are parameters, not implementations. Their source is not part of this model.
  - The only assumptions are the 32-byte digest and, in the lemmas that say so, that formatting and conversion round-trip.
- The `DigestException` branch of the rotation (:193-196) cannot be taken, because the hash parameter is total.
  - For the same reason, the `throws DigestException` of the helpers and of `regenerateSeedUponReport` is not modelled.
- Scheduling and concurrency are left out:
  - cancelling and restarting the generation task (:74, :109-111);
  - the asynchrony of the database task and its `.get()` (:75, :96, :174, :183);
  - the interleaving with other threads.
  - The writes are modelled as synchronous and in program order.
- `TimeUtils`, `UUID.randomUUID()` and `System.currentTimeMillis()` are inputs (`prevBoundary`, `initSeed`/`freshSeed`, `now`/`clock`).
  - Formatting a random UUID into the fresh seed bytes at :80 is folded into `freshSeed`.
- Java `long` overflow is not modelled: timestamps and their differences are unbounded integers.
- SeedRotation.RotationCount: it uses exact rational division and a ceiling. The rounding of the `double` division at :149 is not modelled.
- Failures of the preferences store and the database (a failed `commit`, I/O errors) are not modelled.
- The database's primary key is not modelled.
  - A record saved a second time replaces the stored record with the same position.
  - Records are never deduplicated by timestamp.
- The exception types are only as fine as `SeedChain.Fault`. A `Failure`/`Fail` result means "the Java method throws this".
- AtRestCipher: key store internals are not modelled.
  - `KeyStore.getInstance` and `load` are one success flag.
  - The key generators are one success flag.
  - The cipher implementations are parameters.
  - No round trip of AES or RSA is proved.
- Logging is not modelled, and neither is the commented-out code (:214-225, :276-311).
- `TraceSettingsRecyclerViewAdapter.java` (UI view binding) is not part of this model.
- Constants.Config.Valid: it asks for a positive seconds interval as well.
  - The code divides only by the minutes interval.
  - A positive seconds interval is what makes the regenerated timestamps strictly increasing; the app's constant is positive.
