/**
 * The expiring key/value cache of package pokecache: a map from request URLs
 * to byte payloads stamped with their insertion time, a time-to-live fixed at
 * construction, and the reaper that deletes the entries older than the TTL.
 *
 * Time is an explicit integer `now`, in seconds. The mutex, the goroutine and
 * the ticker are not modelled: every method runs atomically, and one tick of
 * the reaper is the method ReapTick.
 */
module PokeCache {
  import opened Wrappers
  import Strconv

  type Byte = bv8

  /** cacheEntry: a payload and the second it was stored. */
  datatype CacheEntry = CacheEntry(createdAt: int, val: seq<Byte>)

  datatype ConfigError =
    | ValueIsNil           // "One or more values provided are nil"
    | InvalidDurationType  // "invalid duration type provided"
    | DurationOutOfRange   // the TTL does not fit a time.Duration (see TimeToLive)

  const NanosPerSecond: int := 1_000_000_000

  /** The keys of durationMap; the match is exact and case-sensitive. */
  predicate IsDurationUnit(durationType: string) {
    durationType == "second" || durationType == "minute" || durationType == "hour"
  }

  /** durationMap: the length of each unit in seconds. */
  function UnitSeconds(durationType: string): Option<int> {
    match durationType
    case "second" => Some(1)
    case "minute" => Some(60)
    case "hour" => Some(3600)
    case _ => None
  }

  /** Go's signed 64-bit wrap-around. */
  function WrapInt64(x: int): (r: int)
    ensures Strconv.MinInt64 <= r <= Strconv.MaxInt64
    ensures (x - r) % 0x1_0000_0000_0000_0000 == 0
    ensures Strconv.MinInt64 <= x <= Strconv.MaxInt64 ==> r == x
  {
    (x - Strconv.MinInt64) % 0x1_0000_0000_0000_0000 + Strconv.MinInt64
  }

  /**
   * intervalTimer as NewCache computes it once its guards pass:
   * time.Duration(durationLife) * timeVersion, a product of two int64
   * nanosecond counts that wraps around on overflow.
   */
  function IntervalAsWritten(durationType: string, durationLife: int): (r: Option<int>)
    ensures r.Some? <==> IsDurationUnit(durationType) && durationLife > 0
    ensures r.Some? ==> Strconv.MinInt64 <= r.value <= Strconv.MaxInt64
  {
    if durationType == "" || durationLife <= 0 then None
    else match UnitSeconds(durationType)
      case None => None
      case Some(unit) => Some(WrapInt64(durationLife * (unit * NanosPerSecond)))
  }

  /**
   * The TTL in seconds that NewCache builds, or the configuration error it
   * reports. Beyond the source's two guards it rejects a TTL whose nanosecond
   * count does not fit in a time.Duration, where the source's product wraps.
   */
  function TimeToLive(durationType: string, durationLife: int): (r: Result<int, ConfigError>)
    ensures r == Failure(ValueIsNil) <==> durationType == "" || durationLife <= 0
    ensures r == Failure(InvalidDurationType) <==>
              durationType != "" && durationLife > 0 && !IsDurationUnit(durationType)
    ensures r == Failure(DurationOutOfRange) <==>
              && IsDurationUnit(durationType) && durationLife > 0
              && durationLife * UnitSeconds(durationType).value * NanosPerSecond > Strconv.MaxInt64
    ensures r.Success? ==> IsDurationUnit(durationType) && durationLife > 0
    ensures r.Success? ==> 0 < durationLife <= r.value && r.value * NanosPerSecond <= Strconv.MaxInt64
    ensures r.Success? && durationType == "second" ==> r.value == durationLife
    ensures r.Success? && durationType == "minute" ==> r.value == 60 * durationLife
    ensures r.Success? && durationType == "hour" ==> r.value == 3600 * durationLife
  {
    if durationType == "" || durationLife <= 0 then Failure(ValueIsNil)
    else match UnitSeconds(durationType)
      case None => Failure(InvalidDurationType)
      case Some(unit) =>
        var ttl := durationLife * unit;
        if ttl * NanosPerSecond <= Strconv.MaxInt64 then Success(ttl) else Failure(DurationOutOfRange)
  }

  /** Wherever TimeToLive accepts, it agrees with the interval the source computes. */
  lemma TimeToLiveAgreesWithSource(durationType: string, durationLife: int)
    requires TimeToLive(durationType, durationLife).Success?
    ensures IntervalAsWritten(durationType, durationLife)
            == Some(TimeToLive(durationType, durationLife).value * NanosPerSecond)
  {
    var unit := UnitSeconds(durationType).value;
    assert durationLife * (unit * NanosPerSecond) == durationLife * unit * NanosPerSecond;
  }

  /** A known unit and a positive life pass both of NewCache's guards; only the overflow check can refuse them. */
  lemma GuardsPass(durationType: string, durationLife: int)
    requires IsDurationUnit(durationType) && durationLife > 0
    ensures IntervalAsWritten(durationType, durationLife).Some?
    ensures TimeToLive(durationType, durationLife).Success?
            || TimeToLive(durationType, durationLife) == Failure(DurationOutOfRange)
  {
  }

  /**
   * The source's product wraps: 2562048 hours is more nanoseconds than an
   * int64 holds, and the wrapped interval is negative, so time.NewTicker in
   * reapLoop panics; 18446744074 seconds wraps to a positive TTL of about
   * 0.29 seconds. TimeToLive rejects both.
   */
  lemma IntervalOverflowExamples()
    ensures IntervalAsWritten("hour", 2562048) == Some(-9223371273709551616)
    ensures IntervalAsWritten("second", 18446744074) == Some(290448384)
    ensures TimeToLive("hour", 2562048) == Failure(DurationOutOfRange)
    ensures TimeToLive("second", 18446744074) == Failure(DurationOutOfRange)
  {
    assert 2562048 * (3600 * NanosPerSecond) == 9223372800000000000;
    assert 18446744074 * (1 * NanosPerSecond) == 18446744074000000000;
  }

  /** Sample good and bad configurations: units and magnitudes. */
  lemma TimeToLiveExamples()
    ensures TimeToLive("second", 5) == Success(5)
    ensures TimeToLive("minute", 2) == Success(120)
    ensures TimeToLive("", 5) == Failure(ValueIsNil)
    ensures TimeToLive("second", 0) == Failure(ValueIsNil)
    ensures TimeToLive("second", -1) == Failure(ValueIsNil)
    ensures TimeToLive("fortnight", 5) == Failure(InvalidDurationType)
    ensures TimeToLive("Second", 5) == Failure(InvalidDurationType)
  {
  }

  /** An entry is reaped when its age exceeds the TTL (strictly). */
  predicate Expired(e: CacheEntry, now: int, ttl: int) {
    now - e.createdAt > ttl
  }

  /** The entries a reap tick at time `now` leaves behind. */
  function Reaped(m: map<string, CacheEntry>, now: int, ttl: int): map<string, CacheEntry> {
    map k | k in m && !Expired(m[k], now, ttl) :: m[k]
  }

  /** A map holding exactly the unexpired entries, unchanged, is the reaped map. */
  lemma ReapedIsSurvivors(m: map<string, CacheEntry>, r: map<string, CacheEntry>, now: int, ttl: int)
    requires forall k :: k in r <==> k in m && !Expired(m[k], now, ttl)
    requires forall k :: k in r ==> r[k] == m[k]
    ensures r == Reaped(m, now, ttl)
  {
  }

  /** Cache: the entries and the TTL; the RWMutex is not modelled. */
  class Cache {
    /** The entries by key (the source's field `cache`). */
    var entries: map<string, CacheEntry>
    /** The time-to-live in seconds (the source's field `intervalTimer`), fixed for the cache's life. */
    const ttl: int

    constructor (ttl: int)
      requires 0 < ttl && ttl * NanosPerSecond <= Strconv.MaxInt64
      ensures this.ttl == ttl && entries == map[]
    {
      this.ttl := ttl;
      entries := map[];
    }

    /** Add: insert or wholesale replace the entry for `key`, stamped `now`. */
    method Add(key: string, val: seq<Byte>, now: int)
      modifies this`entries
      ensures entries == old(entries)[key := CacheEntry(now, val)]
    {
      entries := entries[key := CacheEntry(now, val)];
    }

    /**
     * Get: the stored payload and true, or the empty payload (Go's nil) and
     * false. It does not look at the entry's age.
     */
    method Get(key: string) returns (val: seq<Byte>, found: bool)
      ensures found <==> key in entries
      ensures found ==> val == entries[key].val
      ensures !found ==> val == []
    {
      if key !in entries {
        return [], false;
      }
      return entries[key].val, true;
    }

    /**
     * The first phase of a reap tick: walk the map (in no particular order)
     * and collect the keys whose entries are older than the TTL.
     */
    method ExpiredKeys(now: int) returns (keyDeletion: seq<string>)
      ensures forall k :: k in keyDeletion <==> k in entries && Expired(entries[k], now, ttl)
      ensures forall i, j :: 0 <= i < j < |keyDeletion| ==> keyDeletion[i] != keyDeletion[j]
    {
      keyDeletion := [];
      var unvisited := entries.Keys;
      while unvisited != {}
        invariant unvisited <= entries.Keys
        invariant forall k :: k in keyDeletion <==>
                    k in entries && k !in unvisited && Expired(entries[k], now, ttl)
        invariant forall i, j :: 0 <= i < j < |keyDeletion| ==> keyDeletion[i] != keyDeletion[j]
        decreases unvisited
      {
        var key :| key in unvisited;
        if Expired(entries[key], now, ttl) {
          keyDeletion := keyDeletion + [key];
        }
        unvisited := unvisited - {key};
      }
    }

    /**
     * One tick of reapLoop at time `now`: nothing on an empty cache,
     * otherwise collect the expired keys and delete them. In the source the
     * two phases run under a read lock and then a write lock, with a window
     * between them in which an Add can race; here the tick is atomic.
     */
    method ReapTick(now: int)
      modifies this`entries
      ensures entries == Reaped(old(entries), now, ttl)
    {
      if |entries| == 0 {
        return;
      }
      var keyDeletion := ExpiredKeys(now);
      if |keyDeletion| > 0 {
        var i := 0;
        while i < |keyDeletion|
          invariant 0 <= i <= |keyDeletion|
          invariant forall k :: k in entries <==>
                      k in old(entries) && (!Expired(old(entries)[k], now, ttl) || k in keyDeletion[i..])
          invariant forall k :: k in entries ==> entries[k] == old(entries)[k]
        {
          assert forall k :: k in keyDeletion[i..] <==> k == keyDeletion[i] || k in keyDeletion[i + 1..];
          entries := entries - {keyDeletion[i]};
          i := i + 1;
        }
      }
      ReapedIsSurvivors(old(entries), entries, now, ttl);
    }
  }

  /** NewCache: validate the configuration and build an empty cache with that TTL. */
  method NewCache(durationType: string, durationLife: int) returns (r: Result<Cache, ConfigError>)
    ensures r.Failure? ==> TimeToLive(durationType, durationLife) == Failure(r.error)
    ensures r.Success? ==> TimeToLive(durationType, durationLife) == Success(r.value.ttl)
    ensures r.Success? ==> fresh(r.value) && r.value.entries == map[]
  {
    var ttl := TimeToLive(durationType, durationLife);
    if ttl.Failure? {
      return Failure(ttl.error);
    }
    var c := new Cache(ttl.value);
    return Success(c);
  }

  // ---------------------------------------------------------------------------
  // Properties of the reap.

  /** A reap deletes exactly the expired keys; every other entry survives untouched. */
  lemma ReapRemovesExactlyExpired(m: map<string, CacheEntry>, now: int, ttl: int, k: string)
    ensures k in Reaped(m, now, ttl) <==> k in m && now - m[k].createdAt <= ttl
    ensures k in Reaped(m, now, ttl) ==> Reaped(m, now, ttl)[k] == m[k]
  {
  }

  /** A reap with nothing expired, in particular on an empty cache, changes nothing. */
  lemma ReapWithoutExpiredIsNoop(m: map<string, CacheEntry>, now: int, ttl: int)
    requires forall k :: k in m ==> !Expired(m[k], now, ttl)
    ensures Reaped(m, now, ttl) == m
  {
  }

  /** Two ticks at the same time have the effect of one. */
  lemma ReapIdempotent(m: map<string, CacheEntry>, now: int, ttl: int)
    ensures Reaped(Reaped(m, now, ttl), now, ttl) == Reaped(m, now, ttl)
  {
  }

  /** A later tick subsumes an earlier one. */
  lemma ReapLaterSubsumesEarlier(m: map<string, CacheEntry>, t1: int, t2: int, ttl: int)
    requires t1 <= t2
    ensures Reaped(Reaped(m, t1, ttl), t2, ttl) == Reaped(m, t2, ttl)
    ensures Reaped(m, t2, ttl).Keys <= Reaped(m, t1, ttl).Keys
  {
  }

  /**
   * An entry added at time t survives a tick at `now` exactly when it is at
   * most ttl old; a re-add restarts its age.
   */
  lemma ReapAfterAdd(m: map<string, CacheEntry>, k: string, v: seq<Byte>, t: int, now: int, ttl: int)
    ensures k in Reaped(m[k := CacheEntry(t, v)], now, ttl) <==> now - t <= ttl
    ensures now - t <= ttl ==> Reaped(m[k := CacheEntry(t, v)], now, ttl)[k] == CacheEntry(t, v)
  {
  }

  // ---------------------------------------------------------------------------
  // Round trip, overwrite and expiry on the class.

  /** Add followed by Get returns the value. */
  method AddGetRoundTrip(c: Cache, k: string, v: seq<Byte>, now: int) returns (got: seq<Byte>, found: bool)
    modifies c
    ensures found && got == v
  {
    c.Add(k, v, now);
    got, found := c.Get(k);
  }

  /** The last Add wins, and its time is the one the reaper uses. */
  method LastWriteWins(c: Cache, k: string, v1: seq<Byte>, v2: seq<Byte>, t1: int, t2: int)
    returns (got: seq<Byte>, found: bool)
    modifies c
    ensures found && got == v2
    ensures k in c.entries && c.entries[k] == CacheEntry(t2, v2)
    ensures forall k' :: k' != k ==> (k' in c.entries <==> k' in old(c.entries))
  {
    c.Add(k, v1, t1);
    c.Add(k, v2, t2);
    got, found := c.Get(k);
  }

  /**
   * Get does not enforce expiry: an expired entry is still returned until a
   * reap tick removes it.
   */
  method ExpiredStillReadableUntilReaped(c: Cache, k: string, v: seq<Byte>, t: int, now: int)
    returns (before: bool, after: bool)
    requires now - t > c.ttl
    modifies c
    ensures before && !after
  {
    c.Add(k, v, t);
    var _, b := c.Get(k);
    c.ReapTick(now);
    var _, a := c.Get(k);
    before, after := b, a;
  }
}
