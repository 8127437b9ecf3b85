/**
 * The configuration constants the seed chain reads from the application's
 * `Constants` class. Their values are not fixed by the model.
 */
module Constants {

  datatype Config = Config(
    infectionWindowInDays: int,            // Constants.InfectionWindowInDays
    uuidGenerationIntervalInMinutes: int,  // Constants.UUIDGenerationIntervalInMinutes
    uuidGenerationIntervalInSeconds: int   // Constants.UUIDGenerationIntervalInSeconds
  ) {
    /** The intervals are positive; the window length is a Java `int`. */
    predicate Valid() {
      && uuidGenerationIntervalInMinutes > 0
      && uuidGenerationIntervalInSeconds > 0
      && -0x8000_0000 <= infectionWindowInDays < 0x8000_0000
    }
  }
}
