/**
 * The current cache controller (`collector.AwsStatsCollector`): it hands a
 * collection run to a background collector thread and, while that thread
 * is running, keeps serving the last store it handed out. The thread's own
 * run (`AwsCollectorThread.Run`) happens on that thread, after `start()`;
 * here the thread is only created.
 */
module StatsCollector {
  import opened Wrappers
  import opened JavaInts
  import opened Stats
  import opened Configuration
  import opened Accounts
  import opened CollectorThreads

  /** The injected settings, which the controller copies into every thread's `Config`. */
  datatype Settings = Settings(
    allowedComponents: Option<seq<string>>,
    cacheDuration: int32,
    ignoredComponents: Option<seq<string>>,
    s3Details: bool,
    supportedRegions: Option<seq<string>>)

  /**
   * The account list after `loadAccounts`: an existing list stays; an empty
   * one receives an account for the default provider chain and then one for
   * the instance profile, up to the first provider that has no credentials.
   */
  predicate AccountsLoaded(before: seq<AwsAccount>, after: seq<AwsAccount>,
                           chain: Option<Credentials>, profile: Option<Credentials>)
    reads after
  {
    if before != [] then after == before
    else if chain.None? then after == []
    else
      && |after| == (if profile.Some? then 2 else 1)
      && after[0].credentials == chain.value
      && (profile.Some? ==> after[1].credentials == profile.value)
  }

  /** `collector.AwsStatsCollector`; `lastCollectTime` is its static time stamp, `scanDetails` the scanners' static `S3_DETAILS`. */
  class AwsStatsCollector {
    var accounts: seq<AwsAccount>
    var allowedComponents: Option<seq<string>>
    var cacheDuration: int32
    var collectorThread: AwsCollectorThread?
    var ignoredComponents: Option<seq<string>>
    var s3Details: bool
    var stats: AwsStats?
    var statsOld: AwsStats?
    var supportedRegions: Option<seq<string>>
    var lastCollectTime: int
    var scanDetails: bool

    function CurrentSettings(): Settings
      reads this
    {
      Settings(allowedComponents, cacheDuration, ignoredComponents, s3Details, supportedRegions)
    }

    /** The injected settings; no accounts, store or thread yet; the time stamp is the class-loading time. */
    constructor (loadTime: int, settings: Settings, scanDetails: bool)
      ensures CurrentSettings() == settings && this.scanDetails == scanDetails
      ensures accounts == [] && collectorThread == null && stats == null && statsOld == null
      ensures lastCollectTime == loadTime
    {
      accounts := [];
      allowedComponents := settings.allowedComponents;
      cacheDuration := settings.cacheDuration;
      ignoredComponents := settings.ignoredComponents;
      s3Details := settings.s3Details;
      supportedRegions := settings.supportedRegions;
      collectorThread := null;
      stats := null;
      statsOld := null;
      lastCollectTime := loadTime;
      this.scanDetails := scanDetails;
    }

    /** A collector thread exists and has set its `isRunning` flag. */
    predicate Running()
      reads this, collectorThread
    {
      collectorThread != null && collectorThread.isRunning
    }

    /** The store is missing, empty or older than the cache duration. */
    predicate Stale(now: int)
      reads this, stats
    {
      stats == null || stats.ItemCount() == 0 || now - lastCollectTime > cacheDuration as int
    }

    /** `c` holds this controller's settings, as the `Config` setters store them (a `null` array as an empty one). */
    predicate ConfigOf(c: Config)
      reads this, c
    {
      && c.allowedComponents == Some(NonNull(allowedComponents))
      && c.cacheDuration == cacheDuration
      && c.ignoredComponents == Some(NonNull(ignoredComponents))
      && c.s3Details == s3Details
      && c.supportedRegions == Some(NonNull(supportedRegions))
    }

    /**
     * `clearCache`: empties the store, when there is one, and drops it. The
     * old store is not touched, unless it is the same object, which is then
     * empty too and so is no longer served.
     */
    method ClearCache()
      modifies this, stats
      ensures stats == null
      ensures old(stats) != null ==> old(stats).resources == []
      ensures old(statsOld) == old(stats) && statsOld != null ==> statsOld.ItemCount() == 0
      ensures statsOld == old(statsOld) && collectorThread == old(collectorThread) && accounts == old(accounts)
      ensures CurrentSettings() == old(CurrentSettings())
      ensures lastCollectTime == old(lastCollectTime) && scanDetails == old(scanDetails)
    {
      if stats != null {
        stats.Clear();
      }
      stats := null;
    }

    /** `getConfig`: a fresh `Config` carrying the settings. */
    method GetConfig() returns (c: Config)
      ensures fresh(c) && c.Valid() && ConfigOf(c)
    {
      c := new Config();
      c.SetAllowedComponents(allowedComponents);
      c.SetCacheDuration(cacheDuration);
      c.SetIgnoredComponents(ignoredComponents);
      c.SetS3Details(s3Details);
      c.SetSupportedRegions(supportedRegions);
    }

    /** `setConfig`: the settings are taken from the `Config` as they are. */
    method SetConfig(c: Config)
      modifies this
      ensures CurrentSettings()
        == Settings(c.allowedComponents, c.cacheDuration, c.ignoredComponents, c.s3Details, c.supportedRegions)
      ensures accounts == old(accounts) && collectorThread == old(collectorThread)
      ensures stats == old(stats) && statsOld == old(statsOld)
      ensures lastCollectTime == old(lastCollectTime) && scanDetails == old(scanDetails)
    {
      allowedComponents := c.allowedComponents;
      cacheDuration := c.cacheDuration;
      ignoredComponents := c.ignoredComponents;
      s3Details := c.s3Details;
      supportedRegions := c.supportedRegions;
    }

    /** `setAccounts`: the list is cleared and refilled with the given accounts, in order. */
    method SetAccounts(given: seq<AwsAccount>)
      modifies this
      ensures accounts == given
      ensures CurrentSettings() == old(CurrentSettings()) && collectorThread == old(collectorThread)
      ensures stats == old(stats) && statsOld == old(statsOld)
      ensures lastCollectTime == old(lastCollectTime) && scanDetails == old(scanDetails)
    {
      var list: seq<AwsAccount> := [];
      var i := 0;
      while i < |given|
        invariant 0 <= i <= |given|
        invariant list == given[..i]
      {
        assert given[..i + 1] == given[..i] + [given[i]];
        list := list + [given[i]];
        i := i + 1;
      }
      assert given[..i] == given;
      accounts := list;
    }

    /**
     * `loadAccounts`: with no accounts yet, one for the default provider
     * chain and one for the instance profile; a provider that cannot give
     * credentials throws, after the accounts before it were added.
     */
    method LoadAccounts(chain: Option<Credentials>, profile: Option<Credentials>) returns (thrown: bool)
      modifies this
      ensures old(accounts) != [] ==> !thrown
      ensures old(accounts) == [] ==> (thrown <==> chain.None? || profile.None?)
      ensures AccountsLoaded(old(accounts), accounts, chain, profile)
      ensures old(accounts) == [] ==> forall a | a in accounts :: fresh(a)
      ensures CurrentSettings() == old(CurrentSettings()) && collectorThread == old(collectorThread)
      ensures stats == old(stats) && statsOld == old(statsOld)
      ensures lastCollectTime == old(lastCollectTime) && scanDetails == old(scanDetails)
    {
      thrown := false;
      if accounts == [] {
        if chain.None? {
          return true;
        }
        var first := new AwsAccount.FromCredentials(Some(""), chain.value);
        accounts := accounts + [first];
        if profile.None? {
          return true;
        }
        var second := new AwsAccount.FromCredentials(Some(""), profile.value);
        accounts := accounts + [second];
      }
    }

    /**
     * `collectDataFromAws(currentStats)`: nothing while a thread is running.
     * Otherwise the time stamp moves, the scanners' S3 switch is set, the
     * accounts are loaded (which may throw), and a new thread over
     * `currentStats` and the accounts is started; `currentStats` becomes the
     * store at once, to be filled by the thread.
     */
    method CollectDataFromAws(current: AwsStats, now: int, chain: Option<Credentials>, profile: Option<Credentials>)
      returns (thrown: bool)
      modifies this
      ensures CurrentSettings() == old(CurrentSettings()) && statsOld == old(statsOld)
      ensures old(Running()) ==>
        && !thrown && accounts == old(accounts) && collectorThread == old(collectorThread)
        && stats == old(stats) && lastCollectTime == old(lastCollectTime) && scanDetails == old(scanDetails)
      ensures !old(Running()) ==> lastCollectTime == now && scanDetails == s3Details
      ensures !old(Running()) ==> (thrown <==> old(accounts) == [] && (chain.None? || profile.None?))
      ensures !old(Running()) ==>
        AccountsLoaded(old(accounts), accounts, chain, profile)
        && (old(accounts) == [] ==> forall a | a in accounts :: fresh(a))
      ensures !old(Running()) && thrown ==> stats == old(stats) && collectorThread == old(collectorThread)
      ensures !old(Running()) && !thrown ==>
        && stats == current
        && collectorThread != null && fresh(collectorThread) && !collectorThread.isRunning
        && collectorThread.stats == current && collectorThread.accounts == accounts
        && fresh(collectorThread.config) && collectorThread.config.Valid() && ConfigOf(collectorThread.config)
    {
      if collectorThread != null && collectorThread.isRunning {
        return false;
      }
      lastCollectTime := now;
      scanDetails := s3Details;
      thrown := LoadAccounts(chain, profile);
      if thrown {
        return;
      }
      var config := GetConfig();
      collectorThread := new AwsCollectorThread(current, accounts, config);
      stats := current;
    }

    /**
     * `forceAddStats`: a run into the existing store (a new, empty one when
     * there is none); the store is returned unless loading the accounts throws.
     */
    method ForceAddStats(now: int, chain: Option<Credentials>, profile: Option<Credentials>)
      returns (r: AwsStats?, thrown: bool)
      modifies this
      ensures stats != null
      ensures old(stats) != null ==> stats == old(stats)
      ensures old(stats) == null ==> fresh(stats) && stats.resources == []
      ensures thrown ==> r == null
      ensures !thrown ==> r == stats
      ensures CurrentSettings() == old(CurrentSettings()) && statsOld == old(statsOld)
      ensures old(Running()) ==>
        && !thrown && collectorThread == old(collectorThread) && accounts == old(accounts)
        && lastCollectTime == old(lastCollectTime) && scanDetails == old(scanDetails)
      ensures !old(Running()) ==>
        lastCollectTime == now && scanDetails == s3Details
        && (thrown <==> old(accounts) == [] && (chain.None? || profile.None?))
        && AccountsLoaded(old(accounts), accounts, chain, profile)
        && (old(accounts) == [] ==> forall a | a in accounts :: fresh(a))
      ensures !old(Running()) && thrown ==> collectorThread == old(collectorThread)
      ensures !old(Running()) && !thrown ==>
        && collectorThread != null && fresh(collectorThread) && !collectorThread.isRunning
        && collectorThread.stats == stats && collectorThread.accounts == accounts
        && fresh(collectorThread.config) && collectorThread.config.Valid() && ConfigOf(collectorThread.config)
    {
      if stats == null {
        stats := new AwsStats();
      }
      thrown := CollectDataFromAws(stats, now, chain, profile);
      if thrown {
        return null, true;
      }
      r := stats;
    }

    /**
     * `getStats`: while a thread is running, the old store when it holds
     * anything; otherwise a new run into a fresh store when the store is
     * stale (a no-op while a thread runs), or else the store, which is also
     * remembered as the old store. The result is `null` only when the store
     * was dropped while a thread runs with no old store to serve.
     */
    method GetStats(now: int, chain: Option<Credentials>, profile: Option<Credentials>)
      returns (r: AwsStats?, thrown: bool)
      modifies this
      ensures CurrentSettings() == old(CurrentSettings())
      ensures old(Running()) && old(statsOld) != null && old(statsOld.ItemCount()) > 0 ==>
        && r == old(statsOld) && r.ItemCount() > 0 && !thrown
        && stats == old(stats) && statsOld == old(statsOld) && collectorThread == old(collectorThread)
        && lastCollectTime == old(lastCollectTime) && accounts == old(accounts) && scanDetails == old(scanDetails)
      ensures !(old(Running()) && old(statsOld) != null && old(statsOld.ItemCount()) > 0) && old(Stale(now)) ==>
        && statsOld == old(statsOld)
        && (old(Running()) ==>
              r == old(stats) && !thrown && collectorThread == old(collectorThread) && accounts == old(accounts)
              && lastCollectTime == old(lastCollectTime) && scanDetails == old(scanDetails))
        && (!old(Running()) ==>
              lastCollectTime == now && scanDetails == s3Details
              && (thrown <==> old(accounts) == [] && (chain.None? || profile.None?))
              && AccountsLoaded(old(accounts), accounts, chain, profile)
              && (old(accounts) == [] ==> forall a | a in accounts :: fresh(a)))
        && (!old(Running()) && thrown ==> r == null && stats == old(stats) && collectorThread == old(collectorThread))
        && (!old(Running()) && !thrown ==>
              r == stats && r != null && fresh(r) && r.resources == [] &&
              collectorThread != null && fresh(collectorThread) && !collectorThread.isRunning &&
              collectorThread.stats == r && collectorThread.accounts == accounts &&
              fresh(collectorThread.config) && collectorThread.config.Valid() && ConfigOf(collectorThread.config))
      ensures !(old(Running()) && old(statsOld) != null && old(statsOld.ItemCount()) > 0) && !old(Stale(now)) ==>
        && r == old(stats) && statsOld == old(stats) && !thrown
        && lastCollectTime == old(lastCollectTime) && collectorThread == old(collectorThread)
        && accounts == old(accounts) && scanDetails == old(scanDetails)
      ensures !thrown && r == null ==> old(stats) == null && old(Running())
    {
      if collectorThread != null && collectorThread.isRunning && statsOld != null && statsOld.ItemCount() > 0 {
        return statsOld, false;
      } else if stats == null || stats.ItemCount() == 0 || now - lastCollectTime > cacheDuration as int {
        var current := new AwsStats();
        thrown := CollectDataFromAws(current, now, chain, profile);
        if thrown {
          return null, true;
        }
      } else {
        statsOld := stats;
      }
      r, thrown := stats, false;
    }
  }
}
