/** ESRefreshDataManager: per identifier, the date of the last refresh and the
    interval after which it expires. Dates are seconds on the clock that
    `now` is read from; only the in-memory dictionaries are modelled. */
module RefreshDataManager {
  import opened Wrappers

  class DataManager {
    var lastRefreshInfo: map<string, real>
    var expiredTimeIntervalInfo: map<string, real>

    /** The dictionaries as loaded from the defaults store. */
    constructor (lastRefreshInfo: map<string, real>, expiredTimeIntervalInfo: map<string, real>)
      ensures this.lastRefreshInfo == lastRefreshInfo
      ensures this.expiredTimeIntervalInfo == expiredTimeIntervalInfo
    {
      this.lastRefreshInfo := lastRefreshInfo;
      this.expiredTimeIntervalInfo := expiredTimeIntervalInfo;
    }

    function Date(key: string): (d: Option<real>)
      reads this
      ensures d.Some? <==> key in lastRefreshInfo
      ensures d.Some? ==> d.value == lastRefreshInfo[key]
    {
      if key in lastRefreshInfo then Some(lastRefreshInfo[key]) else None
    }

    function ExpiredTimeInterval(key: string): (i: Option<real>)
      reads this
      ensures i.Some? <==> key in expiredTimeIntervalInfo
      ensures i.Some? ==> i.value == expiredTimeIntervalInfo[key]
    {
      if key in expiredTimeIntervalInfo then Some(expiredTimeIntervalInfo[key]) else None
    }

    /** setDate: a date is recorded for `key`, nil erases it; other keys keep theirs. */
    method SetDate(date: Option<real>, key: string)
      modifies this`lastRefreshInfo
      ensures Date(key) == date
      ensures forall k :: k != key ==> Date(k) == old(Date(k))
      ensures lastRefreshInfo.Keys == if date.Some? then old(lastRefreshInfo.Keys) + {key}
                                      else old(lastRefreshInfo.Keys) - {key}
    {
      if date.Some? {
        lastRefreshInfo := lastRefreshInfo[key := date.value];
      } else {
        lastRefreshInfo := lastRefreshInfo - {key};
      }
    }

    /** setExpiredTimeInterval: same shape as SetDate, on the other dictionary. */
    method SetExpiredTimeInterval(interval: Option<real>, key: string)
      modifies this`expiredTimeIntervalInfo
      ensures ExpiredTimeInterval(key) == interval
      ensures forall k :: k != key ==> ExpiredTimeInterval(k) == old(ExpiredTimeInterval(k))
    {
      if interval.Some? {
        expiredTimeIntervalInfo := expiredTimeIntervalInfo[key := interval.value];
      } else {
        expiredTimeIntervalInfo := expiredTimeIntervalInfo - {key};
      }
    }

    /** isExpired(forKey:): never refreshed means expired; refreshed without
        an interval never expires; otherwise expired once strictly more than
        the interval has passed since the last refresh. */
    function IsExpired(key: string, now: real): (expired: bool)
      reads this
      ensures Date(key).None? ==> expired
      ensures Date(key).Some? && ExpiredTimeInterval(key).None? ==> !expired
      ensures Date(key).Some? && ExpiredTimeInterval(key).Some? ==>
                (expired <==> now - Date(key).value > ExpiredTimeInterval(key).value)
    {
      match Date(key)
      case None => true
      case Some(date) =>
        match ExpiredTimeInterval(key)
        case None => false
        case Some(interval) => date - now < -interval
    }

    /** clearAll, clearLastRefreshInfo and clearExpiredTimeIntervalInfo only
        erase the persisted copies; the dictionaries in memory stay as they are. */
    method ClearAll()
      ensures lastRefreshInfo == old(lastRefreshInfo)
      ensures expiredTimeIntervalInfo == old(expiredTimeIntervalInfo)
    {
      ClearLastRefreshInfo();
      ClearExpiredTimeIntervalInfo();
    }

    method ClearLastRefreshInfo()
      ensures lastRefreshInfo == old(lastRefreshInfo)
    {
    }

    method ClearExpiredTimeIntervalInfo()
      ensures expiredTimeIntervalInfo == old(expiredTimeIntervalInfo)
    {
    }
  }

  /** A refresh 25 seconds ago has expired under a 20-second interval and has
      not under a 30-second one. */
  lemma ExpiryExample(m: DataManager)
    requires m.lastRefreshInfo == map["feed" := 75.0]
    ensures m.expiredTimeIntervalInfo == map["feed" := 20.0] ==> m.IsExpired("feed", 100.0)
    ensures m.expiredTimeIntervalInfo == map["feed" := 30.0] ==> !m.IsExpired("feed", 100.0)
  {
  }

  /** Expiry is monotone in time: once expired, a key stays expired as the
      clock advances (until its date or interval is written again). */
  lemma ExpiryIsMonotone(m: DataManager, key: string, now: real, later: real)
    requires now <= later && m.IsExpired(key, now)
    ensures m.IsExpired(key, later)
  {
  }

  /** Up to and including `date + interval`, a refreshed key with an
      interval has not expired. */
  lemma FreshDateNotExpired(m: DataManager, key: string, now: real)
    requires key in m.lastRefreshInfo && key in m.expiredTimeIntervalInfo
    requires now <= m.lastRefreshInfo[key] + m.expiredTimeIntervalInfo[key]
    ensures !m.IsExpired(key, now)
  {
  }
}
