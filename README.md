# DAM UA price — a Dafny model

This project models the core of the Home Assistant integration for the Ukrainian
day-ahead market (DAM, "РДН") prices published by the market operator. It covers
three parts:

- The **coordinator** (`custom_components/dam-ua-price/coordinator.py`):
  - It keeps a cache of hourly prices per Kyiv calendar day.
  - Once a day it asks the operator for today's prices, and for tomorrow's from 20:00 Kyiv time.
  - It turns each answer of 24 numbers (UAH per MWh) into 24 one-hour ranges (UAH per kWh).
  - It schedules an hourly refresh of its listeners and a daily sync at a randomised 20:mm:ss Kyiv time.
  - It answers the sensors' questions: all cached entries, today's entries, the tariff-zone rate of the current hour.
- The **sensors' price logic** (`custom_components/dam-ua-price/sensor.py`):
  - The previous, current and next hour's price.
  - Today's lowest and highest price, and today's average.
  - The household price under a one-, two- or three-zone meter, and the household selling price.
- The **price range** value (`custom_components/dam-ua-price/utils.py`): a half-open interval `[start, end)` with a price.

## How time is modelled

- Instants are integer UTC epoch seconds.
- Kyiv local time is UTC plus a fixed offset of 2 or 3 hours (`Clock.ValidOffset`).
- A Kyiv calendar day is the number `(t + offset) / 86400`, so day `d` starts at the instant `d * 86400 - offset`.
- The cache's keys are the strings `strftime('%d.%m.%Y')` of a Kyiv date. The model keys the cache by that day number instead; both are one-to-one with the date.
- Python's dictionary keeps keys in insertion order. The model carries that order explicitly as the field `dayOrder`.

## How scheduling is modelled

- A callback registered with `async_track_point_in_utc_time` is a `Timer(id, job, at)` value.
- The event loop's pending callbacks are the set `armed`.
- An unsubscribe handle is the `Option<Timer>` held in `unsubSyncPrices` or `unsubHourly`. Calling it removes the timer from `armed`.
- The coordinator's invariant `Valid()` says that every pending timer is the one its handle holds. So at most one daily sync and one hourly refresh are ever pending (`OnePendingPerJob`).
- Firing a timer is modelled by `FireSync` and `FireHourly`.

## How the outside world is modelled

- Requests to the operator are not made. Each request's result is a parameter: `Some(pricesData)` for a parsed answer, or `None` for a connection error or an answer without `pricesData`.
- Clock readings (`dt_util.utcnow()`, `dt_util.now()`) are parameters.
- The random jitter `int(random() * 59)` is a constructor parameter in `0..58`.
- The meter-zone setting and the fixed price come from the config entry. Here they are parameters.

## Model

| member | source | states |
|---|---|---|
| Utils.TimeRangePrice.Duration | custom_components/dam-ua-price/utils.py:12-13 | start plus the duration is the end; the duration is positive for a non-empty range |
| Utils.ContainsBounds | custom_components/dam-ua-price/utils.py:9-10 | a non-empty range contains its start and not its end, and exactly the instants in `[start, end)` |
| Utils.AdjacentDisjoint | custom_components/dam-ua-price/utils.py:9-10 | two ranges where one ends where the next starts share no instant |
| Coordinator.ParsedDay | custom_components/dam-ua-price/coordinator.py:170-180 | an answer is accepted iff it holds exactly 24 values; the result then tiles the day hour by hour, entry i priced at value i / 1000, each an hour long |
| Coordinator.ConvertPayload | custom_components/dam-ua-price/coordinator.py:170-177 | the conversion loop builds exactly the list `Parse` specifies: 24 contiguous one-hour ranges from the day's start, or nothing |
| Coordinator.TiledEntryAt | custom_components/dam-ua-price/coordinator.py:171-175 | in a tiled day, entry i contains instant t iff t lies in that day and i is t's hour since the day's start |
| Coordinator.TiledDayDisjoint | custom_components/dam-ua-price/coordinator.py:171-175 | no instant lies in two entries of one converted day |
| Coordinator.ApiBase | custom_components/dam-ua-price/coordinator.py:151-173 | corrected start of the converted day: Kyiv midnight of the Kyiv date that names the request, which lies at most a day before `now` and on the same Kyiv day |
| Coordinator.ApiBaseAsWrittenAgreesIff | custom_components/dam-ua-price/coordinator.py:173 | the start used as written (Kyiv midnight of the UTC date) equals the corrected one iff the Kyiv hour is past the UTC offset |
| Coordinator.ApiBaseAsWrittenMisfiles | custom_components/dam-ua-price/coordinator.py:151-173 | at 23:00 UTC with Kyiv at UTC+2, day 1 is requested and filed, but as written every converted entry lies on day 0 and none contains `now` |
| Coordinator.AllEntriesLength | custom_components/dam-ua-price/coordinator.py:182-189 | concatenating the cached days gives 24 entries per cached day |
| Coordinator.SyncStoreKeepsCached | custom_components/dam-ua-price/coordinator.py:116-128 | a sync never overwrites a cached day; it adds only today, or tomorrow from 20:00 Kyiv time |
| Coordinator.SyncStoreFailureKeepsCache | custom_components/dam-ua-price/coordinator.py:116-128 | failed requests leave the cache and its order unchanged, and a failure is reported exactly when a request was due |
| Coordinator.SyncStoreFetchesToday | custom_components/dam-ua-price/coordinator.py:116-121 | a missing today with a 24-value answer is stored, converted from today's Kyiv midnight, and the step counts as a fetch, which stamps `updated_at` |
| Coordinator.SyncStoreTomorrowFromEight | custom_components/dam-ua-price/coordinator.py:123-128 | before 20:00 Kyiv time at most today is added; from 20:00 a missing tomorrow with a good answer is stored, converted from tomorrow's Kyiv midnight |
| Coordinator.SyncStorePreservesValid | custom_components/dam-ua-price/coordinator.py:116-128 | a sync keeps the cache well formed: keys distinct and in insertion order, each day tiling its own Kyiv day |
| Coordinator.NextHourlyInterval | custom_components/dam-ua-price/coordinator.py:59-70 | the next hourly refresh is a whole UTC hour strictly after the clock reading and at most an hour later |
| Coordinator.NextHourlyIsFirst | custom_components/dam-ua-price/coordinator.py:59-70 | no whole hour after the clock reading comes before the next hourly refresh |
| Coordinator.SyncTargetNextEvening | custom_components/dam-ua-price/coordinator.py:92-145 | the sync is left pending in the future at 20:mm:ss Kyiv time, today before 20:00 and tomorrow from 20:00 |
| Coordinator.GetCurrentZoneRate | custom_components/dam-ua-price/coordinator.py:201-227 | a rate exists iff the zone setting (unset or empty meaning "2") is "1", "2" or "3"; every rate is between 0.4 and 1.5; one zone always gives 1.0 |
| Coordinator.ZoneRateTable | custom_components/dam-ua-price/coordinator.py:201-227 | the two- and three-zone rates hour by hour: night 23-07, three-zone peak 08-12 and 20-23; an unset zone acts as "2" |
| Coordinator.DAMDataUpdateCoordinator.constructor | custom_components/dam-ua-price/coordinator.py:40-53 | an empty cache, nothing published, no handles and nothing pending, with the jitter within 0..58 |
| Coordinator.DAMDataUpdateCoordinator.OnePendingPerJob | custom_components/dam-ua-price/coordinator.py:108-114 | in a well-formed coordinator two pending timers of the same job are the same timer |
| Coordinator.DAMDataUpdateCoordinator.ApiCall | custom_components/dam-ua-price/coordinator.py:147-180 | returns the converted answer and records an update error exactly when it returns nothing |
| Coordinator.DAMDataUpdateCoordinator.FetchData | custom_components/dam-ua-price/coordinator.py:90-145 | the cache, its order, `updated_at` and the error flag follow `SyncStore`; the old sync is cancelled and exactly one new one is pending at the `SyncTarget` time; the hourly refresh is untouched, and whether the cache has been published is unchanged |
| Coordinator.DAMDataUpdateCoordinator.ArmSync | custom_components/dam-ua-price/coordinator.py:108-114 | cancels the pending sync and registers one new sync at the given instant |
| Coordinator.DAMDataUpdateCoordinator.FetchDay | custom_components/dam-ua-price/coordinator.py:116-121 | for a missing day, stores the converted answer when there is one, appending its key, and stamps `updated_at` |
| Coordinator.DAMDataUpdateCoordinator.SyncCache | custom_components/dam-ua-price/coordinator.py:116-128 | the cache side of a sync follows `SyncStore` and keeps the coordinator well formed |
| Coordinator.DAMDataUpdateCoordinator.HourlyUpdate | custom_components/dam-ua-price/coordinator.py:83-88 | registers the next hourly refresh at `NextHourlyInterval` and publishes the cache object itself, so the published data is the live cache from then on |
| Coordinator.DAMDataUpdateCoordinator.Init | custom_components/dam-ua-price/coordinator.py:55-57 | after start-up the cache, its order, `updated_at` and the error flag follow `SyncStore` at `now`; exactly two callbacks are pending, the sync at its `SyncTarget` and the hourly refresh at `NextHourlyInterval`; the cache is published |
| Coordinator.DAMDataUpdateCoordinator.FireSync | custom_components/dam-ua-price/coordinator.py:112-114 | a sync that fires runs the sync step at its own instant: the cache follows `SyncStore` there; the fired timer is replaced by one at the next `SyncTarget`, strictly later and the only pending sync; the hourly refresh is untouched |
| Coordinator.DAMDataUpdateCoordinator.FireHourly | custom_components/dam-ua-price/coordinator.py:84-86 | an hourly refresh that fires is replaced by one at `NextHourlyInterval`, after the clock however late it fired, and one hour on when it fired on the hour within that hour; the pending sync stays pending; the cache is published |
| Coordinator.DAMDataUpdateCoordinator.AsyncShutdown | custom_components/dam-ua-price/coordinator.py:72-81 | both handles are cleared and nothing remains pending; a second shutdown changes nothing |
| Coordinator.DAMDataUpdateCoordinator.GetAllPriceEntries | custom_components/dam-ua-price/coordinator.py:182-189 | all cached days concatenated in insertion order, 24 entries per day |
| Coordinator.DAMDataUpdateCoordinator.GetDataCurrentDay | custom_components/dam-ua-price/coordinator.py:191-199 | non-empty iff today's Kyiv day is cached; it is then that day's list, tiling today from Kyiv midnight |
| Sensor.PriceAt | custom_components/dam-ua-price/sensor.py:77-83 | no price iff no entry contains the instant; otherwise the price of the last entry containing it |
| Sensor.GetPrices | custom_components/dam-ua-price/sensor.py:66-99 | the previous, current and next hour's prices are the last matching entries an hour before, at and an hour after now; the current one defaults to 0 |
| Sensor.ValidatePrices | custom_components/dam-ua-price/sensor.py:29-39 | the last, current and next price sensors report the cached price of the previous, current and next Kyiv hour; last and next report none when that day is not cached, and current reports 0 instead |
| Sensor.PriceAtAppend | custom_components/dam-ua-price/sensor.py:77-83 | looking up in two lists in a row prefers a match in the later list |
| Sensor.TiledPriceAt | custom_components/dam-ua-price/sensor.py:77-83 | in one converted day the price at t is the entry of t's hour, or nothing outside the day |
| Sensor.StoreLookup | custom_components/dam-ua-price/sensor.py:69-83 | over the whole cache the price at t is that of t's Kyiv hour in t's Kyiv day, or nothing when that day is not cached |
| Sensor.PricesFromCache | custom_components/dam-ua-price/sensor.py:69-83 | looking an instant up in all of a well-formed coordinator's entries gives the cached price of its Kyiv hour, and nothing exactly when its Kyiv day is not cached |
| Sensor.CurrentDayHasNow | custom_components/dam-ua-price/coordinator.py:191-199 | today's list, when cached, contains now, in the entry of the current Kyiv hour |
| Sensor.GetMinMaxPrice | custom_components/dam-ua-price/sensor.py:102-120 | the returned price is the lowest (or highest) of the day, with the range of the last entry holding it |
| Sensor.DailyAverage | custom_components/dam-ua-price/sensor.py:341-347 | no average for an empty day; otherwise the average times the number of hours is the sum of the prices |
| Sensor.SumBounds | custom_components/dam-ua-price/sensor.py:344-347 | the sum of prices lies between n times the lowest bound and n times the highest |
| Sensor.AverageWithinBounds | custom_components/dam-ua-price/sensor.py:341-347 | the average lies within any bounds that hold for every hour's price |
| Sensor.GetHouseholdPrice | custom_components/dam-ua-price/sensor.py:41-50 | a household price exists iff a fixed price is configured, and it is that price times the zone rate |
| Sensor.HouseholdWithinTariffBand | custom_components/dam-ua-price/sensor.py:41-50 | with a known zone the household price lies between 0.4 and 1.5 times the fixed price |
| Sensor.GetHouseholdSellingPrice | custom_components/dam-ua-price/sensor.py:52-63 | exists iff a fixed price is configured; it is the smaller of the current market price and the zone-rated price without 20% VAT |

## Left out

- HTTP and JSON: the request, its headers and the parsing of the answer are not modelled. Each request's outcome is a parameter. A `json.loads` error is not caught by the source and propagates. The model has no such path.
- The `retry` parameters of `hourly_update` and `api_call` are never used by the source. They are left out.
- Home Assistant internals are left out: the base class's `async_shutdown`, listener notification, the `last_update_success` bookkeeping, and the error object passed to `async_set_update_error`. Publishing is the flag `published`: `async_set_updated_data` stores the dictionary object itself, so the model's `Data()` is the live cache once it is set. Recording an error is the flag `updateFailed`. It stays set once a fetch has failed. The source's `last_update_success` is set back to true by the `async_set_updated_data` of the hourly refresh (coordinator.py:88), which `init` runs right after its fetch. So `updateFailed` is not the flag the integration's set-up checks, and in the source a failed first fetch does not abort set-up.
- Concurrency: each call of `fetch_data` or `init` is taken as one atomic step. The source suspends at each `api_call` (coordinator.py:117, 124) while the request is in flight, and other callbacks can run meanwhile. Such interleavings are not modelled, for example an `async_shutdown` or an hourly refresh arriving during a request. In the source, a shutdown during `init`'s request before 20:00 Kyiv time leaves a sync pending afterwards: `fetch_data` resumes and registers one at line 143.
- Coordinator.DAMDataUpdateCoordinator.AsyncShutdown: "nothing remains pending" is proved for a shutdown between callbacks. A shutdown while a fetch is in flight is not modelled (see the line above).
- Daylight saving time and the time-zone database: Kyiv is a fixed UTC offset of 2 or 3 hours. Days of 23 or 25 hours are not modelled.
- Floating point: prices are reals, with no rounding and no NaN. Instants are whole seconds. `get_prices` compares against a fractional timestamp, but every range has whole-second bounds, so the whole second holds the same answers.
- Coordinator.NextHourlyInterval: `get_next_hourly_interval` ignores its `now` argument and reads the clock. The model's parameter is that clock reading.
- Coordinator.DAMDataUpdateCoordinator.Init: the source reads the clock twice. The model takes both readings as parameters.
- Coordinator.DAMDataUpdateCoordinator.FetchData: before 20:00 the source re-arms the sync for today's 20:mm:ss in an `elif` after the tomorrow check. The model does it after that check. The outcome is the same, because the tomorrow branch cannot run before 20:00.
- Coordinator.DAMDataUpdateCoordinator.FetchData: the model converts answers from the corrected day start `ApiBase`, not the as-written one (see Findings).
- Coordinator.DAMDataUpdateCoordinator.HourlyUpdate: requires that no hourly refresh is pending. The source calls it only from `init` and from its own timer, where this holds.
- Sensor.GetMinMaxPrice: requires a non-empty day. The source raises `IndexError` on an empty day. The conversion of `start` and `end` to Kyiv `datetime` values is left out.
- Sensor.GetHouseholdPrice: requires a rate whenever a price is set. For a zone setting other than "1", "2" or "3" the source has no rate (`None`), and `price * rate` raises `TypeError`. The configuration form offers only those three settings. The same holds for Sensor.GetHouseholdSellingPrice.
- Sensor.GetPrices: it takes the coordinator's entries as its argument, rather than calling `get_all_price_entries` itself.
- Platform set-up and the entity layer are left out: entity descriptions, unique ids, icons, units, the `today_prices` extra attribute, and the "updated at" timestamp sensor. `custom_components/sqrtt-dam-ua-price/__init__.py`, `config_flow.py`, `const.py` and `custom_components/dam-ua-price/entity.py` are not part of this model.

## Findings

| source | as written | input that shows it | evidently intended | confidence | as-written member | corrected member |
|---|---|---|---|---|---|---|
| custom_components/dam-ua-price/coordinator.py:173 | Each range starts at `now.replace(hour=i, tzinfo=kiev_tz)`. That keeps the UTC calendar date of `now`. The request and the cache key use the Kyiv date of `now` (lines 105, 151). | `now` = 23:00 UTC on day 0, with Kyiv at UTC+2, i.e. 01:00 Kyiv on day 1. Day 1 is requested and filed under day 1's key, but its 24 ranges cover day 0. No range contains `now`, so until the next day the current price reads 0. | The ranges start at Kyiv midnight of the Kyiv date that was requested. | high; not executed | Coordinator.ApiBaseAsWritten (shown by Coordinator.ApiBaseAsWrittenMisfiles) | Coordinator.ApiBase (proved in Coordinator.ParsedDay, Sensor.CurrentDayHasNow) |
