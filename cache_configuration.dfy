/** The eviction policy record (SandPlayerCacheConfiguration). */
module CacheConfiguration {

  /** `maxCacheAge` is a TimeInterval, here whole seconds (negative switches age
      eviction off); `maxCacheSize` is a UInt, so it cannot be negative. */
  datatype Configuration = Configuration(maxCacheAge: int, maxCacheSize: nat)

  /** One week: 60 * 60 * 24 * 7 seconds. */
  const DefaultMaxCacheAge: int := 60 * 60 * 24 * 7

  /** No size budget. */
  const DefaultMaxCacheSize: nat := 0

  /** The values a freshly created configuration holds. */
  function Default(): (c: Configuration)
    ensures c.maxCacheAge == 604800 && c.maxCacheSize == 0
  {
    Configuration(DefaultMaxCacheAge, DefaultMaxCacheSize)
  }
}
