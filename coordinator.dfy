/**
 * The price cache and its scheduler (custom_components/dam-ua-price/coordinator.py):
 * the conversion of a day-ahead payload into hourly entries, the per-day
 * store, the daily sync and hourly refresh timers, and the read-only queries.
 *
 * The HTTP request, the JSON decoding, the clock and the event loop are not
 * modelled: a fetch is given as the payload it returned (`None` for any
 * failure), the clock as an epoch-second parameter, and the event loop as the
 * set `armed` of callbacks this coordinator has pending.
 */
module Coordinator {
  import opened Wrappers
  import opened Clock
  import opened Utils

  /** Number of hourly values in a complete day-ahead payload. */
  const HoursPerDay: int := 24

  // ---------------------------------------------------------------------------
  // Conversion of a payload (the tail of api_call)
  // ---------------------------------------------------------------------------

  /** Entry `i` spans hour `i` after `dayStart` and carries `raw[i]` thousandths. */
  function DayEntries(raw: seq<int>, dayStart: int): seq<TimeRangePrice>
  {
    seq(|raw|, i requires 0 <= i < |raw| =>
      TimeRangePrice(dayStart + i * HourSeconds, dayStart + i * HourSeconds + HourSeconds, raw[i] as real / 1000.0))
  }

  /** What a fetch yields: entries only for a payload of exactly 24 values. */
  function Parse(payload: Option<seq<int>>, dayStart: int): Option<seq<TimeRangePrice>>
  {
    if payload.Some? && |payload.value| == HoursPerDay then Some(DayEntries(payload.value, dayStart)) else None
  }

  /** `es` covers the local day that starts at `dayStart` with 24 consecutive one-hour entries. */
  ghost predicate TilesDay(es: seq<TimeRangePrice>, dayStart: int)
  {
    && |es| == HoursPerDay
    && forall i :: 0 <= i < |es| ==> es[i].start == dayStart + i * HourSeconds && es[i].end == es[i].start + HourSeconds
  }

  /**
   * A payload of 24 values becomes 24 contiguous hourly entries tiling the day,
   * each priced at its raw value divided by 1000; any other payload gives nothing.
   */
  lemma ParsedDay(payload: Option<seq<int>>, dayStart: int)
    ensures Parse(payload, dayStart).Some? <==> payload.Some? && |payload.value| == 24
    ensures Parse(payload, dayStart).Some? ==>
      var es := Parse(payload, dayStart).value;
      && TilesDay(es, dayStart)
      && es[0].start == dayStart && es[23].end == dayStart + DaySeconds
      && (forall i :: 0 <= i < 23 ==> es[i].end == es[i + 1].start)
      && (forall i :: 0 <= i < 24 ==> es[i].value == payload.value[i] as real / 1000.0 && es[i].Duration() == HourSeconds)
  {
  }

  /** In a tiled day, entry `i` contains `t` exactly when `t` falls in that day's hour `i`. */
  lemma TiledEntryAt(es: seq<TimeRangePrice>, dayStart: int, t: int, i: int)
    requires TilesDay(es, dayStart) && 0 <= i < |es|
    ensures es[i].Contains(t) <==> dayStart <= t < dayStart + DaySeconds && i == (t - dayStart) / HourSeconds
  {
    if es[i].Contains(t) {
      DivHour(t - dayStart, i, t - dayStart - i * HourSeconds);
    }
  }

  /** In a tiled day no instant is contained in two entries. */
  lemma TiledDayDisjoint(es: seq<TimeRangePrice>, dayStart: int, t: int, i: int, j: int)
    requires TilesDay(es, dayStart) && 0 <= i < |es| && 0 <= j < |es|
    requires es[i].Contains(t) && es[j].Contains(t)
    ensures i == j
  {
    TiledEntryAt(es, dayStart, t, i);
    TiledEntryAt(es, dayStart, t, j);
  }

  /** The loop of api_call that appends one entry per raw value. */
  method ConvertPayload(payload: Option<seq<int>>, dayStart: int) returns (r: Option<seq<TimeRangePrice>>)
    ensures r == Parse(payload, dayStart)
  {
    if payload.None? || |payload.value| != HoursPerDay {
      return None;
    }
    var data := payload.value;
    var priceRanges: seq<TimeRangePrice> := [];
    for i := 0 to |data|
      invariant |priceRanges| == i
      invariant forall k :: 0 <= k < i ==> priceRanges[k] == DayEntries(data, dayStart)[k]
    {
      var start := dayStart + i * HourSeconds;
      var end := start + HourSeconds;
      priceRanges := priceRanges + [TimeRangePrice(start, end, data[i] as real / 1000.0)];
    }
    assert priceRanges == DayEntries(data, dayStart);
    return Some(priceRanges);
  }

  // ---------------------------------------------------------------------------
  // Which day api_call stamps its entries on
  // ---------------------------------------------------------------------------

  /**
   * As written, api_call takes the calendar date of its (UTC) argument and
   * reads it as a Kyiv date: the entries start at Kyiv midnight of the UTC date.
   */
  function ApiBaseAsWritten(now: int, offset: int): int
  {
    DayStart(UtcDay(now), offset)
  }

  /**
   * The evidently intended start: Kyiv midnight of the Kyiv day of `now`, the
   * day whose prices the request asks for and whose key the result is filed under.
   */
  function ApiBase(now: int, offset: int): (b: int)
    ensures b <= now < b + DaySeconds
    ensures LocalDay(now, offset) == LocalDay(b, offset)
    ensures b == DayStart(LocalDay(now, offset), offset)
  {
    var day := LocalDay(now, offset);
    LocalDayIff(now, offset, day);
    LocalDayIff(DayStart(day, offset), offset, day);
    DayStart(day, offset)
  }

  /** The written start agrees with the intended one exactly from Kyiv hour `offset / 3600` on. */
  lemma ApiBaseAsWrittenAgreesIff(now: int, offset: int)
    requires ValidOffset(offset)
    ensures ApiBaseAsWritten(now, offset) == ApiBase(now, offset) <==> LocalHour(now, offset) * HourSeconds >= offset
  {
    var q, r := now / DaySeconds, now % DaySeconds;
    if r + offset < DaySeconds {
      DivDay(now + offset, q, r + offset);
      DivHour(r + offset, (r + offset) / HourSeconds, (r + offset) % HourSeconds);
    } else {
      DivDay(now + offset, q + 1, r + offset - DaySeconds);
    }
  }

  /**
   * At 01:00 Kyiv winter time (23:00 UTC of the day before), today's prices are
   * filed under today's key but stamped on yesterday: no entry contains `now`.
   */
  lemma ApiBaseAsWrittenMisfiles(raw: seq<int>)
    requires |raw| == 24
    ensures LocalDay(82800, 7200) == 1 && LocalHour(82800, 7200) == 1
    ensures ApiBaseAsWritten(82800, 7200) == DayStart(0, 7200)
    ensures forall p :: p in DayEntries(raw, ApiBaseAsWritten(82800, 7200)) ==> !p.Contains(82800)
  {
    var es := DayEntries(raw, ApiBaseAsWritten(82800, 7200));
    forall p | p in es ensures !p.Contains(82800) {
      var i :| 0 <= i < |es| && es[i] == p;
      assert p.end == -7200 + i * 3600 + 3600;
    }
  }

  // ---------------------------------------------------------------------------
  // The per-day store
  // ---------------------------------------------------------------------------

  /** `not pricesDayData.get(key)`: the day is absent, or stored empty. */
  predicate Missing(days: map<int, seq<TimeRangePrice>>, key: int)
  {
    key !in days || days[key] == []
  }

  /** The store after a fetch for `key` that returned `got`. */
  function Stored(days: map<int, seq<TimeRangePrice>>, key: int, got: Option<seq<TimeRangePrice>>): map<int, seq<TimeRangePrice>>
  {
    if got.Some? then days[key := got.value] else days
  }

  /** The dictionary's key order after that fetch: a new key goes last, a known key keeps its place. */
  function Ordered(order: seq<int>, days: map<int, seq<TimeRangePrice>>, key: int, got: Option<seq<TimeRangePrice>>): seq<int>
  {
    if got.Some? && key !in days then order + [key] else order
  }

  /** Keys are distinct and listed in `order`, and each stored day tiles its own Kyiv day. */
  ghost predicate StoreValid(days: map<int, seq<TimeRangePrice>>, order: seq<int>, offset: int)
  {
    && (forall i, j :: 0 <= i < j < |order| ==> order[i] != order[j])
    && (forall i :: 0 <= i < |order| ==> order[i] in days)
    && (forall k :: k in days ==> k in order)
    && (forall k :: k in days ==> TilesDay(days[k], DayStart(k, offset)))
  }

  /** All stored entries, day after day in key order (get_all_price_entries). */
  function AllEntries(days: map<int, seq<TimeRangePrice>>, order: seq<int>): seq<TimeRangePrice>
    requires forall i :: 0 <= i < |order| ==> order[i] in days
  {
    if order == [] then [] else AllEntries(days, order[..|order| - 1]) + days[order[|order| - 1]]
  }

  /** Every stored day holds 24 entries, so the concatenation holds 24 per listed day. */
  lemma {:induction false} AllEntriesLength(days: map<int, seq<TimeRangePrice>>, order: seq<int>)
    requires forall i :: 0 <= i < |order| ==> order[i] in days && |days[order[i]]| == HoursPerDay
    ensures |AllEntries(days, order)| == HoursPerDay * |order|
  {
    if order != [] {
      AllEntriesLength(days, order[..|order| - 1]);
    }
  }

  /** What one sync step does to the cache: the new days, their order, whether anything was stored or failed. */
  datatype SyncOutcome = SyncOutcome(days: map<int, seq<TimeRangePrice>>, order: seq<int>, fetched: bool, failed: bool)

  /**
   * The cache side of fetch_data at instant `now`: today's Kyiv day is
   * requested if missing; from 20:00 Kyiv time tomorrow's is requested too if
   * missing. `todayPayload` and `tomorrowPayload` are what the requests return.
   */
  function SyncStore(days: map<int, seq<TimeRangePrice>>, order: seq<int>, now: int, offset: int,
                     todayPayload: Option<seq<int>>, tomorrowPayload: Option<seq<int>>): SyncOutcome
  {
    var today, tomorrow := LocalDay(now, offset), LocalDay(now + DaySeconds, offset);
    var askToday := Missing(days, today);
    var gotToday := if askToday then Parse(todayPayload, ApiBase(now, offset)) else None;
    var days1 := Stored(days, today, gotToday);
    var askTomorrow := LocalHour(now, offset) >= 20 && Missing(days1, tomorrow);
    var gotTomorrow := if askTomorrow then Parse(tomorrowPayload, ApiBase(now + DaySeconds, offset)) else None;
    SyncOutcome(
      Stored(days1, tomorrow, gotTomorrow),
      Ordered(Ordered(order, days, today, gotToday), days1, tomorrow, gotTomorrow),
      gotToday.Some? || gotTomorrow.Some?,
      (askToday && gotToday.None?) || (askTomorrow && gotTomorrow.None?))
  }

  /** A cached day is never overwritten, and only today, or tomorrow from 20:00 Kyiv time, is added. */
  lemma SyncStoreKeepsCached(days: map<int, seq<TimeRangePrice>>, order: seq<int>, now: int, offset: int,
                             todayPayload: Option<seq<int>>, tomorrowPayload: Option<seq<int>>)
    requires StoreValid(days, order, offset)
    ensures var out := SyncStore(days, order, now, offset, todayPayload, tomorrowPayload);
      && (forall k :: k in days ==> k in out.days && out.days[k] == days[k])
      && (forall k :: k in out.days && k !in days ==>
            k == LocalDay(now, offset) || (k == LocalDay(now, offset) + 1 && LocalHour(now, offset) >= 20))
  {
    var today, tomorrow := LocalDay(now, offset), LocalDay(now + DaySeconds, offset);
    assert tomorrow == today + 1;
    forall k | k in days ensures days[k] != [] {
      assert TilesDay(days[k], DayStart(k, offset));
    }
  }

  /**
   * A failed request changes nothing: with both payloads unusable the cache is
   * as before, nothing counts as fetched, and a failure is reported exactly
   * when a request was made.
   */
  lemma SyncStoreFailureKeepsCache(days: map<int, seq<TimeRangePrice>>, order: seq<int>, now: int, offset: int,
                                   todayPayload: Option<seq<int>>, tomorrowPayload: Option<seq<int>>)
    requires Parse(todayPayload, ApiBase(now, offset)).None? && Parse(tomorrowPayload, ApiBase(now + DaySeconds, offset)).None?
    ensures var out := SyncStore(days, order, now, offset, todayPayload, tomorrowPayload);
      && out.days == days && out.order == order && !out.fetched
      && (out.failed <==> Missing(days, LocalDay(now, offset)) ||
                          (LocalHour(now, offset) >= 20 && Missing(days, LocalDay(now + DaySeconds, offset))))
  {
  }

  /**
   * Tomorrow's prices are requested only from 20:00 Kyiv time: before that the
   * step stores at most today; from 20:00 on a missing tomorrow with a good payload is stored.
   */
  lemma SyncStoreTomorrowFromEight(days: map<int, seq<TimeRangePrice>>, order: seq<int>, now: int, offset: int,
                                   todayPayload: Option<seq<int>>, tomorrowPayload: Option<seq<int>>)
    ensures var out := SyncStore(days, order, now, offset, todayPayload, tomorrowPayload);
      var tomorrow := LocalDay(now + DaySeconds, offset);
      && (LocalHour(now, offset) < 20 ==> out.days.Keys <= days.Keys + {LocalDay(now, offset)})
      && (LocalHour(now, offset) >= 20 && tomorrow !in days && Parse(tomorrowPayload, ApiBase(now + DaySeconds, offset)).Some? ==>
            tomorrow in out.days && out.days[tomorrow] == DayEntries(tomorrowPayload.value, DayStart(tomorrow, offset)))
  {
    var tomorrow := LocalDay(now + DaySeconds, offset);
    assert tomorrow == LocalDay(now, offset) + 1 by {
      DivDay(now + DaySeconds + offset, LocalDay(now, offset) + 1, (now + offset) % DaySeconds);
    }
  }

  /** A missing today with a good answer is stored, converted from today's Kyiv midnight, and the step counts as a fetch. */
  lemma SyncStoreFetchesToday(days: map<int, seq<TimeRangePrice>>, order: seq<int>, now: int, offset: int,
                              todayPayload: Option<seq<int>>, tomorrowPayload: Option<seq<int>>)
    requires Missing(days, LocalDay(now, offset)) && todayPayload.Some? && |todayPayload.value| == HoursPerDay
    ensures var out := SyncStore(days, order, now, offset, todayPayload, tomorrowPayload);
      var today := LocalDay(now, offset);
      && today in out.days && out.days[today] == DayEntries(todayPayload.value, DayStart(today, offset))
      && out.fetched
  {
    assert LocalDay(now + DaySeconds, offset) == LocalDay(now, offset) + 1 by {
      DivDay(now + DaySeconds + offset, LocalDay(now, offset) + 1, (now + offset) % DaySeconds);
    }
  }

  /** The sync step keeps the cache well formed: distinct keys in order, each day tiling its own Kyiv day. */
  lemma SyncStorePreservesValid(days: map<int, seq<TimeRangePrice>>, order: seq<int>, now: int, offset: int,
                                todayPayload: Option<seq<int>>, tomorrowPayload: Option<seq<int>>)
    requires StoreValid(days, order, offset)
    ensures var out := SyncStore(days, order, now, offset, todayPayload, tomorrowPayload);
      StoreValid(out.days, out.order, offset)
  {
    var today, tomorrow := LocalDay(now, offset), LocalDay(now + DaySeconds, offset);
    ParsedDay(todayPayload, ApiBase(now, offset));
    ParsedDay(tomorrowPayload, ApiBase(now + DaySeconds, offset));
    assert ApiBase(now + DaySeconds, offset) == DayStart(tomorrow, offset);
    var askToday := Missing(days, today);
    var gotToday := if askToday then Parse(todayPayload, ApiBase(now, offset)) else None;
    var days1 := Stored(days, today, gotToday);
    var order1 := Ordered(order, days, today, gotToday);
    StoredValid(days, order, offset, today, gotToday);
    var askTomorrow := LocalHour(now, offset) >= 20 && Missing(days1, tomorrow);
    var gotTomorrow := if askTomorrow then Parse(tomorrowPayload, ApiBase(now + DaySeconds, offset)) else None;
    StoredValid(days1, order1, offset, tomorrow, gotTomorrow);
  }

  /** Storing a freshly fetched day (absent, or stored empty) keeps the cache well formed. */
  lemma StoredValid(days: map<int, seq<TimeRangePrice>>, order: seq<int>, offset: int, key: int, got: Option<seq<TimeRangePrice>>)
    requires StoreValid(days, order, offset)
    requires got.Some? ==> Missing(days, key) && TilesDay(got.value, DayStart(key, offset))
    ensures StoreValid(Stored(days, key, got), Ordered(order, days, key, got), offset)
  {
    if got.Some? && key !in days {
      var order' := order + [key];
      forall i, j | 0 <= i < j < |order'| ensures order'[i] != order'[j] {
        if j == |order| {
          assert order[i] in days;
        }
      }
    }
  }

  // ---------------------------------------------------------------------------
  // Schedules
  // ---------------------------------------------------------------------------

  /** Top of the next UTC hour after the clock reading (get_next_hourly_interval). */
  function NextHourlyInterval(clockNow: int): (r: int)
    ensures clockNow < r <= clockNow + HourSeconds
    ensures r % HourSeconds == 0
  {
    (clockNow + HourSeconds) / HourSeconds * HourSeconds
  }

  /** No top of the hour lies strictly between the clock reading and the next refresh. */
  lemma NextHourlyIsFirst(clockNow: int, m: int)
    requires clockNow < m && m % HourSeconds == 0
    ensures NextHourlyInterval(clockNow) <= m
  {
    DivHour(m, m / HourSeconds, 0);
  }

  /**
   * Where fetch_data leaves the pending sync: 20:mm:ss Kyiv time today before
   * 20:00, otherwise 20:mm:ss on the calendar date of `now` plus one day.
   */
  function SyncTarget(now: int, minute: int, second: int, offset: int): int
  {
    if LocalHour(now, offset) < 20 then WallClock(LocalDay(now, offset), 20, minute, second, offset)
    else WallClock(UtcDay(now + DaySeconds), 20, minute, second, offset)
  }

  /**
   * The pending sync always lies in the future, at 20:mm:ss Kyiv time: today
   * before 20:00, tomorrow from 20:00 on (the UTC date used for it is then the Kyiv date).
   */
  lemma SyncTargetNextEvening(now: int, minute: int, second: int, offset: int)
    requires ValidOffset(offset) && 0 <= minute <= 58 && 0 <= second <= 58
    ensures now < SyncTarget(now, minute, second, offset)
    ensures LocalDay(SyncTarget(now, minute, second, offset), offset) ==
            LocalDay(now, offset) + (if LocalHour(now, offset) < 20 then 0 else 1)
    ensures LocalHour(SyncTarget(now, minute, second, offset), offset) == 20
    ensures SyncTarget(now, minute, second, offset) ==
            DayStart(LocalDay(SyncTarget(now, minute, second, offset), offset), offset) + 20 * HourSeconds + minute * 60 + second
  {
    var day := LocalDay(now, offset);
    LocalHourSinceMidnight(now, offset);
    if LocalHour(now, offset) >= 20 {
      var r := now + offset - day * DaySeconds;
      DivDay(now + DaySeconds, day + 1, r - offset);
      WallClockOn(day + 1, 20, minute, second, offset);
    } else {
      WallClockOn(day, 20, minute, second, offset);
    }
  }

  /** The two callbacks the coordinator schedules. */
  datatype Job = SyncJob | HourlyJob

  /** A callback registered with the event loop for instant `at`; `id` tells registrations apart. */
  datatype Timer = Timer(id: nat, job: Job, at: int)

  /** The timers a handle field refers to. */
  function Handles(h: Option<Timer>): set<Timer>
  {
    if h.Some? then {h.value} else {}
  }

  // ---------------------------------------------------------------------------
  // Tariff (get_current_zone_rate)
  // ---------------------------------------------------------------------------

  /** `data.get("meter_zones") or "2"`: a missing or empty setting means two zones. */
  function EffectiveZones(meterZones: Option<string>): string
  {
    if meterZones.None? || meterZones.value == "" then "2" else meterZones.value
  }

  /** Multiplier of the household tariff for the configured zone count at a Kyiv hour; `None` when no case matches. */
  function GetCurrentZoneRate(meterZones: Option<string>, hour: Hour): (r: Option<real>)
    ensures r.Some? <==> EffectiveZones(meterZones) in {"1", "2", "3"}
    ensures r.Some? ==> 0.4 <= r.value <= 1.5
    ensures EffectiveZones(meterZones) == "1" ==> r == Some(1.0)
  {
    match EffectiveZones(meterZones)
    case "1" => Some(1.0)
    case "2" => if hour >= 23 || hour < 7 then Some(0.5) else Some(1.0)
    case "3" =>
      if hour >= 23 || hour < 7 then Some(0.4)
      else if (8 <= hour <= 11) || (20 <= hour <= 22) then Some(1.5)
      else Some(1.0)
    case _ => None
  }

  /** The tariff tables, hour by hour: night is 23:00-07:00, peak is 08:00-12:00 and 20:00-23:00. */
  lemma ZoneRateTable(meterZones: Option<string>, hour: Hour)
    ensures EffectiveZones(meterZones) == "2" ==>
      GetCurrentZoneRate(meterZones, hour) == if hour in {23, 0, 1, 2, 3, 4, 5, 6} then Some(0.5) else Some(1.0)
    ensures EffectiveZones(meterZones) == "3" ==>
      GetCurrentZoneRate(meterZones, hour) ==
        if hour in {23, 0, 1, 2, 3, 4, 5, 6} then Some(0.4)
        else if hour in {8, 9, 10, 11, 20, 21, 22} then Some(1.5)
        else Some(1.0)
    ensures meterZones == None ==> GetCurrentZoneRate(meterZones, hour) == GetCurrentZoneRate(Some("2"), hour)
  {
  }

  // ---------------------------------------------------------------------------
  // The coordinator
  // ---------------------------------------------------------------------------

  class DAMDataUpdateCoordinator {
    /** Cached prices per Kyiv day; the day number stands for its `DD.MM.YYYY` key. */
    var pricesDayData: map<int, seq<TimeRangePrice>>
    /** The keys of pricesDayData in insertion order, the order the dictionary iterates in. */
    var dayOrder: seq<int>
    /** Instant of the last successful fetch. */
    var updatedAt: Option<int>
    /** Pending daily sync registration, if any. */
    var unsubSyncPrices: Option<Timer>
    /** Pending hourly refresh registration, if any. */
    var unsubHourly: Option<Timer>
    /**
     * Whether the cache has been handed to the listeners. `async_set_updated_data`
     * stores the dictionary object itself, so from then on the published data is
     * the live cache (see `Data`).
     */
    var published: bool
    /** Whether a failed fetch has been reported to the host. */
    var updateFailed: bool
    /** Callbacks of this coordinator pending in the event loop. */
    var armed: set<Timer>
    /** Identity of the next registration. */
    var nextTimerId: nat
    /** Fixed jitter of the daily sync, drawn once. */
    const updateMinute: int
    const updateSecond: int
    /** UTC offset of the reference zone, in seconds. */
    const utcOffset: int

    ghost predicate Valid()
      reads this
    {
      && ValidOffset(utcOffset)
      && 0 <= updateMinute <= 58 && 0 <= updateSecond <= 58
      && StoreValid(pricesDayData, dayOrder, utcOffset)
      && (unsubSyncPrices.Some? ==> unsubSyncPrices.value.job == SyncJob && unsubSyncPrices.value.id < nextTimerId)
      && (unsubHourly.Some? ==> unsubHourly.value.job == HourlyJob && unsubHourly.value.id < nextTimerId)
      && (forall t :: t in armed ==>
            && t.id < nextTimerId
            && ((t.job == SyncJob && unsubSyncPrices == Some(t)) || (t.job == HourlyJob && unsubHourly == Some(t))))
    }

    /** Empty cache, no timers; `minute` and `second` are `int(random() * 59)`. */
    constructor (minute: int, second: int, offset: int)
      requires 0 <= minute <= 58 && 0 <= second <= 58 && ValidOffset(offset)
      ensures Valid()
      ensures updateMinute == minute && updateSecond == second && utcOffset == offset
      ensures pricesDayData == map[] && dayOrder == [] && updatedAt == None && !published && !updateFailed
      ensures unsubSyncPrices == None && unsubHourly == None && armed == {}
    {
      updateMinute, updateSecond, utcOffset := minute, second, offset;
      pricesDayData, dayOrder, updatedAt, published, updateFailed := map[], [], None, false, false;
      unsubSyncPrices, unsubHourly, armed, nextTimerId := None, None, {}, 0;
    }

    /** `coordinator.data`: nothing before the first refresh, then the cache itself, later insertions included. */
    function Data(): Option<map<int, seq<TimeRangePrice>>>
      reads this
    {
      if published then Some(pricesDayData) else None
    }

    /** Every pending callback is the one its handle field holds, so at most one of each kind is pending. */
    lemma OnePendingPerJob(a: Timer, b: Timer)
      requires Valid() && a in armed && b in armed && a.job == b.job
      ensures a == b
    {
    }

    /** async_track_point_in_utc_time: register a callback for instant `at`. */
    method Track(job: Job, at: int) returns (h: Timer)
      modifies this`armed, this`nextTimerId
      ensures h == Timer(old(nextTimerId), job, at) && nextTimerId == old(nextTimerId) + 1
      ensures armed == old(armed) + {h}
    {
      h := Timer(nextTimerId, job, at);
      armed := armed + {h};
      nextTimerId := nextTimerId + 1;
    }

    /** Call an unsubscribe handle; a no-op for a callback that already ran or was cancelled. */
    method Cancel(h: Option<Timer>)
      modifies this`armed
      ensures armed == old(armed) - Handles(h)
    {
      if h.Some? {
        armed := armed - {h.value};
      }
    }

    /** `pricesDayData[key] = entries`: a new key goes to the end of the iteration order. */
    method Put(key: int, entries: seq<TimeRangePrice>)
      modifies this`pricesDayData, this`dayOrder
      ensures pricesDayData == old(pricesDayData)[key := entries]
      ensures dayOrder == if key in old(pricesDayData) then old(dayOrder) else old(dayOrder) + [key]
    {
      if key !in pricesDayData {
        dayOrder := dayOrder + [key];
      }
      pricesDayData := pricesDayData[key := entries];
    }

    /** One fetch: the conversion, reporting an error when there is nothing to return. */
    method ApiCall(payload: Option<seq<int>>, dayStart: int) returns (r: Option<seq<TimeRangePrice>>)
      modifies this`updateFailed
      ensures r == Parse(payload, dayStart)
      ensures updateFailed == (old(updateFailed) || r.None?)
    {
      r := ConvertPayload(payload, dayStart);
      if r.None? {
        updateFailed := true;
      }
    }

    /**
     * The daily sync step at instant `now`. `todayPayload` and `tomorrowPayload`
     * are what the two requests would return; each is used only if its request is made.
     */
    method FetchData(now: int, todayPayload: Option<seq<int>>, tomorrowPayload: Option<seq<int>>)
      requires Valid()
      modifies this
      ensures Valid()
      // the new cache is the sync step's outcome
      ensures var out := SyncStore(old(pricesDayData), old(dayOrder), now, utcOffset, todayPayload, tomorrowPayload);
        && pricesDayData == out.days && dayOrder == out.order
        && updatedAt == (if out.fetched then Some(now) else old(updatedAt))
        && updateFailed == (old(updateFailed) || out.failed)
      // exactly one sync is pending afterwards: the previous one is cancelled, a new one registered
      ensures unsubSyncPrices.Some? && unsubSyncPrices.value.job == SyncJob && unsubSyncPrices.value !in old(armed)
      ensures unsubSyncPrices.value.at == SyncTarget(now, updateMinute, updateSecond, utcOffset)
      ensures armed == old(armed) - Handles(old(unsubSyncPrices)) + {unsubSyncPrices.value}
      ensures unsubHourly == old(unsubHourly) && published == old(published)
    {
      var today := LocalDay(now, utcOffset);
      var hour := LocalHour(now, utcOffset);
      var nextRun := WallClock(UtcDay(now + DaySeconds), 20, updateMinute, updateSecond, utcOffset);
      ghost var armed0 := armed;

      ArmSync(nextRun);
      SyncCache(now, todayPayload, tomorrowPayload);
      // the `elif hour < 20` branch: the sync moves to 20:mm:ss today
      if hour < 20 {
        var nextRunTodayLater := WallClock(today, 20, updateMinute, updateSecond, utcOffset);
        ArmSync(nextRunTodayLater);
      }
      assert unsubSyncPrices.value !in armed0;
    }

    /** The requests of fetch_data and the storing of their results. */
    method SyncCache(now: int, todayPayload: Option<seq<int>>, tomorrowPayload: Option<seq<int>>)
      requires Valid()
      modifies this`pricesDayData, this`dayOrder, this`updatedAt, this`updateFailed
      ensures Valid()
      ensures var out := SyncStore(old(pricesDayData), old(dayOrder), now, utcOffset, todayPayload, tomorrowPayload);
        && pricesDayData == out.days && dayOrder == out.order
        && updatedAt == (if out.fetched then Some(now) else old(updatedAt))
        && updateFailed == (old(updateFailed) || out.failed)
    {
      var today := LocalDay(now, utcOffset);
      var tomorrow := LocalDay(now + DaySeconds, utcOffset);
      ghost var days0, order0 := pricesDayData, dayOrder;
      assert ApiBase(now, utcOffset) == DayStart(today, utcOffset);
      assert ApiBase(now + DaySeconds, utcOffset) == DayStart(tomorrow, utcOffset);

      ghost var gotToday: Option<seq<TimeRangePrice>> := None;
      if Missing(pricesDayData, today) {
        var todayData := FetchDay(now, today, todayPayload);
        gotToday := todayData;
      }
      ghost var days1, order1 := pricesDayData, dayOrder;
      assert days1 == Stored(days0, today, gotToday);
      assert order1 == Ordered(order0, days0, today, gotToday);

      ghost var gotTomorrow: Option<seq<TimeRangePrice>> := None;
      if LocalHour(now, utcOffset) >= 20 && Missing(pricesDayData, tomorrow) {
        var tomorrowData := FetchDay(now, tomorrow, tomorrowPayload);
        gotTomorrow := tomorrowData;
      }
      assert pricesDayData == Stored(days1, tomorrow, gotTomorrow);
      assert dayOrder == Ordered(order1, days1, tomorrow, gotTomorrow);
    }

    /** Cancel the pending sync, if any, and register the next one for instant `at`. */
    method ArmSync(at: int)
      requires Valid()
      modifies this`unsubSyncPrices, this`armed, this`nextTimerId
      ensures Valid()
      ensures unsubSyncPrices == Some(Timer(old(nextTimerId), SyncJob, at))
      ensures armed == old(armed) - Handles(old(unsubSyncPrices)) + {unsubSyncPrices.value}
      ensures nextTimerId == old(nextTimerId) + 1
    {
      Cancel(unsubSyncPrices);
      unsubSyncPrices := None;
      var h := Track(SyncJob, at);
      unsubSyncPrices := Some(h);
    }

    /**
     * The request for a missing Kyiv day `key` and the storing of its result:
     * on success the day is cached and `updated_at` becomes `now`.
     */
    method FetchDay(now: int, key: int, payload: Option<seq<int>>) returns (got: Option<seq<TimeRangePrice>>)
      requires Valid() && Missing(pricesDayData, key)
      modifies this`pricesDayData, this`dayOrder, this`updatedAt, this`updateFailed
      ensures Valid()
      ensures got == Parse(payload, DayStart(key, utcOffset))
      ensures pricesDayData == Stored(old(pricesDayData), key, got)
      ensures dayOrder == Ordered(old(dayOrder), old(pricesDayData), key, got)
      ensures updatedAt == if got.Some? then Some(now) else old(updatedAt)
      ensures updateFailed == (old(updateFailed) || got.None?)
    {
      got := ApiCall(payload, DayStart(key, utcOffset));
      ParsedDay(payload, DayStart(key, utcOffset));
      if got.Some? {
        Put(key, got.value);
        updatedAt := Some(now);
      }
    }

    /** The hourly refresh: re-arm for the next top of the hour and publish the cache. */
    method HourlyUpdate(clockNow: int)
      requires Valid()
      requires unsubHourly.None? || unsubHourly.value !in armed
      modifies this`unsubHourly, this`armed, this`nextTimerId, this`published
      ensures Valid()
      ensures unsubHourly == Some(Timer(old(nextTimerId), HourlyJob, NextHourlyInterval(clockNow)))
      ensures armed == old(armed) + {unsubHourly.value}
      ensures Data() == Some(pricesDayData)
    {
      var h := Track(HourlyJob, NextHourlyInterval(clockNow));
      unsubHourly := Some(h);
      published := true;
    }

    /** Start-up: one sync at `now`, then one hourly refresh at the later clock reading `clockNow`. */
    method Init(now: int, todayPayload: Option<seq<int>>, tomorrowPayload: Option<seq<int>>, clockNow: int)
      requires Valid() && armed == {}
      modifies this
      ensures Valid()
      ensures unsubSyncPrices.Some? && unsubHourly.Some?
      ensures armed == {unsubSyncPrices.value, unsubHourly.value}
      ensures unsubSyncPrices.value.at == SyncTarget(now, updateMinute, updateSecond, utcOffset)
      ensures unsubHourly.value.at == NextHourlyInterval(clockNow)
      ensures var out := SyncStore(old(pricesDayData), old(dayOrder), now, utcOffset, todayPayload, tomorrowPayload);
        && pricesDayData == out.days && dayOrder == out.order
        && updatedAt == (if out.fetched then Some(now) else old(updatedAt))
        && updateFailed == (old(updateFailed) || out.failed)
      ensures Data() == Some(pricesDayData)
    {
      FetchData(now, todayPayload, tomorrowPayload);
      HourlyUpdate(clockNow);
    }

    /** The event loop runs the pending sync at its instant; the sync re-arms itself for a later instant. */
    method FireSync(todayPayload: Option<seq<int>>, tomorrowPayload: Option<seq<int>>)
      requires Valid() && unsubSyncPrices.Some? && unsubSyncPrices.value in armed
      modifies this
      ensures Valid()
      ensures unsubSyncPrices.Some? && unsubSyncPrices.value in armed
      ensures unsubSyncPrices.value.at > old(unsubSyncPrices.value.at)
      ensures unsubSyncPrices.value.at == SyncTarget(old(unsubSyncPrices.value.at), updateMinute, updateSecond, utcOffset)
      ensures forall t :: t in armed && t.job == SyncJob ==> Some(t) == unsubSyncPrices
      // the fired sync is replaced by the new one; the hourly refresh is untouched
      ensures armed == old(armed) - {old(unsubSyncPrices.value)} + {unsubSyncPrices.value}
      ensures unsubHourly == old(unsubHourly) && published == old(published)
      // the cache follows the sync step run at the instant the timer was set for
      ensures var out := SyncStore(old(pricesDayData), old(dayOrder), old(unsubSyncPrices.value.at), utcOffset, todayPayload, tomorrowPayload);
        && pricesDayData == out.days && dayOrder == out.order
        && updatedAt == (if out.fetched then Some(old(unsubSyncPrices.value.at)) else old(updatedAt))
        && updateFailed == (old(updateFailed) || out.failed)
    {
      var t := unsubSyncPrices.value;
      armed := armed - {t};
      FetchData(t.at, todayPayload, tomorrowPayload);
      SyncTargetNextEvening(t.at, updateMinute, updateSecond, utcOffset);
    }

    /**
     * The event loop runs the pending hourly refresh; the clock then reads
     * `clockNow`, at or after the target (later if the host was suspended). It
     * re-arms for the next whole hour: one hour on when it ran on time.
     */
    method FireHourly(clockNow: int)
      requires Valid() && unsubHourly.Some? && unsubHourly.value in armed
      requires unsubHourly.value.at <= clockNow
      modifies this`unsubHourly, this`armed, this`nextTimerId, this`published
      ensures Valid()
      ensures unsubHourly == Some(Timer(old(nextTimerId), HourlyJob, NextHourlyInterval(clockNow)))
      ensures unsubHourly.value.at > clockNow
      // only the hourly timer is replaced: the pending sync stays pending
      ensures armed == old(armed) - {old(unsubHourly.value)} + {unsubHourly.value}
      ensures Data() == Some(pricesDayData)
      ensures old(unsubHourly.value.at) % HourSeconds == 0 && clockNow < old(unsubHourly.value.at) + HourSeconds ==>
                unsubHourly.value.at == old(unsubHourly.value.at) + HourSeconds
    {
      var t := unsubHourly.value;
      armed := armed - {t};
      HourlyUpdate(clockNow);
      if t.at % HourSeconds == 0 && clockNow < t.at + HourSeconds {
        DivHour(t.at, t.at / HourSeconds, 0);
        DivHour(clockNow + HourSeconds, t.at / HourSeconds + 1, clockNow - t.at);
      }
    }

    /** Cancel both pending callbacks and clear their handles; a second call changes nothing. */
    method AsyncShutdown()
      requires Valid()
      modifies this`unsubHourly, this`unsubSyncPrices, this`armed
      ensures Valid()
      ensures unsubHourly == None && unsubSyncPrices == None
      ensures armed == old(armed) - Handles(old(unsubHourly)) - Handles(old(unsubSyncPrices))
      ensures armed == {}
      ensures old(unsubHourly) == None && old(unsubSyncPrices) == None ==> armed == old(armed)
    {
      if unsubHourly.Some? {
        Cancel(unsubHourly);
        unsubHourly := None;
      }
      if unsubSyncPrices.Some? {
        Cancel(unsubSyncPrices);
        unsubSyncPrices := None;
      }
    }

    /** get_all_price_entries: extend a list with each stored day in turn. */
    method GetAllPriceEntries() returns (entries: seq<TimeRangePrice>)
      requires Valid()
      ensures entries == AllEntries(pricesDayData, dayOrder)
      ensures |entries| == HoursPerDay * |dayOrder|
    {
      entries := [];
      for i := 0 to |dayOrder|
        invariant entries == AllEntries(pricesDayData, dayOrder[..i])
      {
        assert dayOrder[..i + 1][..i] == dayOrder[..i];
        entries := entries + pricesDayData[dayOrder[i]];
      }
      assert dayOrder[..|dayOrder|] == dayOrder;
      AllEntriesLength(pricesDayData, dayOrder);
    }

    /** get_data_current_day: the stored list for the Kyiv day of the clock reading, or `[]`. */
    function GetDataCurrentDay(utcNow: int): (r: seq<TimeRangePrice>)
      reads this
      requires Valid()
      ensures r != [] <==> LocalDay(utcNow, utcOffset) in pricesDayData
      ensures r != [] ==> r == pricesDayData[LocalDay(utcNow, utcOffset)] && TilesDay(r, ApiBase(utcNow, utcOffset))
    {
      var key := LocalDay(utcNow, utcOffset);
      if key in pricesDayData && pricesDayData[key] != [] then pricesDayData[key] else []
    }
  }
}
