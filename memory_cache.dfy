/** `KRFMemoryCacheServiceHelper.AddKRFMemoryCache`: checks the service
    collection, chooses the cache settings, and registers the configuration
    of `KRFMemoryCacheOptions` that those settings produce. */
module MemoryCache {
  import opened Wrappers

  /** A C# `int`. */
  newtype int32 = x: int | -0x8000_0000 <= x < 0x8000_0000

  // ---------------------------------------------------------------------------
  // Settings and options
  // ---------------------------------------------------------------------------

  /** `CacheCleanupInterval`: how often expired entries are swept. */
  datatype CleanupInterval = CleanupInterval(hours: int32, minutes: int32, seconds: int32)

  /** `MemoryCacheSize`: both parts optional. */
  datatype MemoryCacheSize = MemoryCacheSize(maxSize: Option<int>, compactionPercentage: Option<int>)

  /** `KRFMemoryCacheSettings`; `K` is the type of the per-key settings. */
  datatype CacheSettings<K> = CacheSettings(cacheCleanupInterval: CleanupInterval,
                                            memoryCacheSize: Option<MemoryCacheSize>,
                                            cachedKeySettings: K)

  /** The `KRFMemoryCacheOptions` fields the configuration assigns; the scan
      frequency is a whole number of seconds. */
  datatype CacheOptions<K> = CacheOptions(expirationScanFrequency: int, sizeLimit: Option<int>,
                                          cachedKeySettings: K)

  /** The exceptions these operations throw. */
  datatype CacheError = ArgumentNull(paramName: string) | TimeSpanTooLong

  /** The largest number of seconds a `TimeSpan` holds (`long.MaxValue` ticks
      of 100 ns). */
  const MaxTimeSpanSeconds: int := 922337203685

  /** `new TimeSpan(hours, minutes, seconds)`, in seconds; out of range throws.
      A non-negative interval with minutes and seconds under 60 reads back as
      its hours, minutes and seconds. */
  function ScanFrequency(interval: CleanupInterval): (r: Result<int, CacheError>)
    ensures r.Failure? ==> r.error == TimeSpanTooLong
    ensures r.Success? ==> -MaxTimeSpanSeconds <= r.value <= MaxTimeSpanSeconds
    ensures r.Success? && 0 <= interval.hours && 0 <= interval.minutes < 60 && 0 <= interval.seconds < 60
            ==> r.value / 3600 == interval.hours as int
                && r.value % 3600 / 60 == interval.minutes as int
                && r.value % 60 == interval.seconds as int
  {
    var total := interval.hours as int * 3600 + interval.minutes as int * 60 + interval.seconds as int;
    if -MaxTimeSpanSeconds <= total <= MaxTimeSpanSeconds then Success(total) else Failure(TimeSpanTooLong)
  }

  /** The `Configure<KRFMemoryCacheOptions>` action applied to options `x`:
      the assignments in source order, the second `SizeLimit` assignment
      overwriting the first. */
  function Configure<K>(settings: CacheSettings<K>, x: CacheOptions<K>): (r: Result<CacheOptions<K>, CacheError>)
    ensures r.Success? <==> ScanFrequency(settings.cacheCleanupInterval).Success?
    ensures r.Failure? ==> r.error == TimeSpanTooLong
    ensures r.Success? ==> r.value.expirationScanFrequency == ScanFrequency(settings.cacheCleanupInterval).value
    ensures r.Success? ==> r.value.cachedKeySettings == settings.cachedKeySettings
  {
    match ScanFrequency(settings.cacheCleanupInterval)
    case Failure(e) => Failure(e)
    case Success(frequency) =>
      var x1 := x.(expirationScanFrequency := frequency);
      var x2 := if settings.memoryCacheSize.Some? && settings.memoryCacheSize.value.maxSize.Some?
                then x1.(sizeLimit := Some(settings.memoryCacheSize.value.maxSize.value))
                else x1;
      var x3 := if settings.memoryCacheSize.Some? && settings.memoryCacheSize.value.compactionPercentage.Some?
                then x2.(sizeLimit := Some(settings.memoryCacheSize.value.compactionPercentage.value))
                else x2;
      Success(x3.(cachedKeySettings := settings.cachedKeySettings))
  }

  // ---------------------------------------------------------------------------
  // Properties of the configuration
  // ---------------------------------------------------------------------------

  /** The scan frequency is hours·3600 + minutes·60 + seconds; the
      configuration fails exactly when that is beyond a `TimeSpan`. */
  lemma ScanFrequencyIsTotalSeconds<K>(settings: CacheSettings<K>, x: CacheOptions<K>)
    ensures var i := settings.cacheCleanupInterval;
            var total := i.hours as int * 3600 + i.minutes as int * 60 + i.seconds as int;
            (Configure(settings, x).Success? <==> -MaxTimeSpanSeconds <= total <= MaxTimeSpanSeconds)
            && (Configure(settings, x).Success? ==> Configure(settings, x).value.expirationScanFrequency == total)
            && (Configure(settings, x).Failure? ==> Configure(settings, x).error == TimeSpanTooLong)
  {
  }

  /** No `int` interval of at most 256204777 hours, with minutes and seconds
      under an hour, is out of range. */
  lemma SmallIntervalsConfigure<K>(settings: CacheSettings<K>, x: CacheOptions<K>)
    requires 0 <= settings.cacheCleanupInterval.hours as int <= 256204777
    requires 0 <= settings.cacheCleanupInterval.minutes as int < 60
    requires 0 <= settings.cacheCleanupInterval.seconds as int < 60
    ensures Configure(settings, x).Success?
  {
  }

  /** Without a `MemoryCacheSize`, `SizeLimit` keeps the value it had. */
  lemma SizeLimitUnassignedWithoutSize<K>(settings: CacheSettings<K>, x: CacheOptions<K>)
    requires settings.memoryCacheSize.None? && Configure(settings, x).Success?
    ensures Configure(settings, x).value.sizeLimit == x.sizeLimit
  {
  }

  /** A `CompactionPercentage` becomes the final `SizeLimit`, whatever `MaxSize` is. */
  lemma CompactionOverwritesSizeLimit<K>(settings: CacheSettings<K>, x: CacheOptions<K>)
    requires settings.memoryCacheSize.Some? && settings.memoryCacheSize.value.compactionPercentage.Some?
    requires Configure(settings, x).Success?
    ensures Configure(settings, x).value.sizeLimit == Some(settings.memoryCacheSize.value.compactionPercentage.value)
  {
  }

  /** `MaxSize` alone becomes the `SizeLimit`; with neither part present
      `SizeLimit` keeps the value it had. */
  lemma MaxSizeAloneSetsSizeLimit<K>(settings: CacheSettings<K>, x: CacheOptions<K>)
    requires settings.memoryCacheSize.Some? && settings.memoryCacheSize.value.compactionPercentage.None?
    requires Configure(settings, x).Success?
    ensures settings.memoryCacheSize.value.maxSize.Some?
            ==> Configure(settings, x).value.sizeLimit == Some(settings.memoryCacheSize.value.maxSize.value)
    ensures settings.memoryCacheSize.value.maxSize.None?
            ==> Configure(settings, x).value.sizeLimit == x.sizeLimit
  {
  }

  /** Settings that differ only in `MaxSize` configure the same options once a
      `CompactionPercentage` is present: the `MaxSize` is lost. */
  lemma MaxSizeIgnoredWithCompaction<K>(settings: CacheSettings<K>, otherMax: Option<int>, x: CacheOptions<K>)
    requires settings.memoryCacheSize.Some? && settings.memoryCacheSize.value.compactionPercentage.Some?
    ensures Configure(settings.(memoryCacheSize := Some(settings.memoryCacheSize.value.(maxSize := otherMax))), x)
            == Configure(settings, x)
  {
  }

  // ---------------------------------------------------------------------------
  // Choosing the settings
  // ---------------------------------------------------------------------------

  /** `settings ?? new KRFMemoryCacheSettings()`. */
  function SelectSettings<K>(settings: Option<CacheSettings<K>>, defaults: CacheSettings<K>): CacheSettings<K>
  {
    if settings.Some? then settings.value else defaults
  }

  /** The configuration overload: `configuration` is `None` when null, and
      otherwise holds what `Get<KRFMemoryCacheSettings>()` binds (`None` when
      it binds to null). It chooses what the settings overload chooses for
      the bound settings, and the defaults when there is nothing to bind. */
  function SettingsFromConfiguration<K>(configuration: Option<Option<CacheSettings<K>>>,
                                        defaults: CacheSettings<K>): (r: CacheSettings<K>)
    ensures configuration.Some? ==> r == SelectSettings(configuration.value, defaults)
    ensures configuration.None? ==> r == defaults
  {
    if configuration.Some? && configuration.value.Some? then configuration.value.value else defaults
  }

  // ---------------------------------------------------------------------------
  // Registration
  // ---------------------------------------------------------------------------

  /** `IServiceCollection`, reduced to the settings captured by each
      registered `Configure<KRFMemoryCacheOptions>` action, oldest first. */
  class ServiceCollection<K> {
    var cacheConfigurations: seq<CacheSettings<K>>

    constructor ()
      ensures cacheConfigurations == []
    {
      cacheConfigurations := [];
    }
  }

  /** `AddKRFMemoryCache(services, settings)`. */
  method AddMemoryCache<K>(services: ServiceCollection?<K>, settings: Option<CacheSettings<K>>,
                           defaults: CacheSettings<K>)
    returns (r: Result<ServiceCollection<K>, CacheError>)
    modifies services
    ensures services == null ==> r == Failure(ArgumentNull("services"))
    ensures services != null ==>
              r == Success(services)
              && services.cacheConfigurations == old(services.cacheConfigurations) + [SelectSettings(settings, defaults)]
  {
    if services == null {
      return Failure(ArgumentNull("services"));
    }
    var cacheSettings := SelectSettings(settings, defaults);
    services.cacheConfigurations := services.cacheConfigurations + [cacheSettings];
    return Success(services);
  }

  /** `AddKRFMemoryCache(services, configuration)`. */
  method AddMemoryCacheFromConfiguration<K>(services: ServiceCollection?<K>,
                                            configuration: Option<Option<CacheSettings<K>>>,
                                            defaults: CacheSettings<K>)
    returns (r: Result<ServiceCollection<K>, CacheError>)
    modifies services
    ensures services == null ==> r == Failure(ArgumentNull("services"))
    ensures services != null ==>
              r == Success(services)
              && services.cacheConfigurations
                 == old(services.cacheConfigurations) + [SettingsFromConfiguration(configuration, defaults)]
  {
    if services == null {
      return Failure(ArgumentNull("services"));
    }
    var cacheSettings: CacheSettings<K>;
    if configuration.Some? && configuration.value.Some? {
      cacheSettings := configuration.value.value;
    } else {
      cacheSettings := defaults;
    }
    services.cacheConfigurations := services.cacheConfigurations + [cacheSettings];
    return Success(services);
  }
}
