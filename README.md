# Click analytics of a URL shortener, in Dafny

This project models the click-analytics engine of a small Express/MongoDB URL shortener
(`controller/apiController.js`), together with the two record shapes it reads and writes
(`models/Analytics.js`, `models/ShortUrl.js`). It has four parts:

- **Click recorder** (`redirectShortApi`). A visit to a registered alias loads that alias's
  analytics record, or a zero-valued one on the first visit. It then:
  - raises `totalClicks`;
  - adds the visitor address to the `uniqueClicks` list if it is not already there;
  - raises the bucket for the visit's UTC day in `clicksByDate`, or appends a new bucket;
  - does the same find-or-append step for the client's entry in `osType` and in `deviceType`.
- **Series merge** (`mergeClicksByDate`). It adds the buckets of one per-day series into
  another, day by day.
- **Rollups**:
  - `analyticsTopic` reports on one alias;
  - `analyticsTopicById` sums over the short URLs of a topic;
  - `analyticsOverall` sums over the short URLs of a user and merges their OS and device
    breakdowns by name.
- **Create** (`createShortApi`). It validates the request, picks the alias and registers
  exactly one short-URL record.

## How it is modelled

Modules follow the structure of the program:

- `Records` holds the record shapes. A timestamp is an integer count of milliseconds since
  1970-01-01 UTC. `DayOf(ms) = ms / 86400000` is the day number. Two timestamps have the same
  ISO 8601 date part (the comparison `toISOString().split('T')[0]` that the controller makes)
  exactly when their day numbers agree.
- `Series` covers `clicksByDate`:
  - `Accumulate` is the find-or-append step;
  - `MergeClicksByDate` is the loop of `mergeClicksByDate`;
  - `DayCount` views a series as a day-to-count map.
- `Tallies` covers `osType` and `deviceType`, which share one entry shape `Tally`:
  - `AddTally` is the find-or-append step;
  - `MergeTallies` is the by-name merge of `analyticsOverall`;
  - `ClicksFor` and `UsersFor` view a breakdown as name-to-count maps.
- `Clicks` covers one click:
  - `Clicked` states it as a function of the loaded record;
  - `RecordClick` applies it field by field, as the handler does;
  - `Consistent` is the invariant every stored record keeps.
- `Rollups` holds the three report handlers. Each rollup receives the result of its database
  query as a sequence of short-URL records, in the order the query returned them, together
  with the analytics store. Sums over aliases are `SumOf` over a `Measure`.
- `Service` holds the class `Shortener`. Its `registry` field stands for the ShortUrl
  collection and its `store` field for the Analytics collection, both maps keyed by alias.
  `CreateShortUrl` and `Redirect` change them in place.

Each find-or-append step is defined once. The click reuses it with a bucket `{now, 1}` and an
entry `{name, 1, 1}`, and the merges reuse it for every incoming bucket or entry.

Both counters of an OS or device entry are raised on every click, even when the visitor has
been seen before. So the two counters of every entry stay equal (`Balanced`), and each
breakdown sums to `totalClicks`. Neither counter counts distinct visitors. The model states
this as it is.

## Model

| member | source | states |
|---|---|---|
| Records.DayOf | controller/apiController.js:120 | the day number of a timestamp is the floor of its quotient by the milliseconds of one day: the timestamp lies within that UTC day |
| Series.FindDay | controller/apiController.js:120 | the `find` over buckets: the index returned is the first bucket on the given day, and nothing is found exactly when no bucket is on that day |
| Series.Accumulate | controller/apiController.js:120-125 | a bucket on a new day is appended at the end; otherwise exactly one bucket on that day gains the count and all others are unchanged; the day set grows by that day only; at most one bucket per day is preserved |
| Series.AccumulateRaisesFirst | controller/apiController.js:120-122 | the bucket that gains the count is the first one on that day, as `find` picks it |
| Series.RaiseAt | controller/apiController.js:122 | raising one bucket by c raises the total by c, and the count of that bucket's day by c and of no other day |
| Series.AccumulateCounts | controller/apiController.js:120-125 | viewed as a day-to-count map, accumulating a bucket adds its count to its own day only, and to the total |
| Series.MergeClicksByDate | controller/apiController.js:291-302 | the merged series is the pointwise sum of the inputs per day, and its days and total are the union and the sum; existing buckets keep their places and new days are appended in incoming order; distinct days are preserved; an empty input leaves the series unchanged |
| Tallies.FindName | controller/apiController.js:127 | the `find` by name: the first entry with that name, or none exactly when no entry has it |
| Tallies.AddTally | controller/apiController.js:127-149 | an entry with a new name is appended; otherwise exactly one entry with that name gains both counters and all others are unchanged; distinct names and equal counters are preserved |
| Tallies.AddTallyRaisesFirst | controller/apiController.js:127-130 | the entry that gains the counters is the first one with that name, as `find` picks it |
| Tallies.RaisedCounts | controller/apiController.js:128-130 | raising one entry raises the sum and the counters of that entry's name, and of no other name |
| Tallies.AddTallyCounts | controller/apiController.js:127-137 | viewed as name-to-count maps, adding an entry adds both of its counters to its own name only, and to the sum |
| Tallies.MergeTallies | controller/apiController.js:250-268 | the merged breakdown is the pointwise sum of both counters per name; names are the union; distinct names and equal counters are preserved; an empty input changes nothing |
| Clicks.Dedup | controller/apiController.js:109-113 | `Array.from(new Set(list))` has no duplicates, has the same elements as the list, and is the list itself when the list had none |
| Clicks.AddVisitor | controller/apiController.js:109-114 | the visitor list gains exactly the new address; a listed address leaves it unchanged; a duplicate-free list stays duplicate-free, grows by at most one, and an unseen address is appended at the end |
| Clicks.NewAnalytics | controller/apiController.js:96-105 | the record made on a first click carries the alias, zero clicks and empty lists, and satisfies the record invariants |
| Clicks.RecordClick | controller/apiController.js:107-149 | the field-by-field updates of the handler produce exactly the clicked record, and keep the alias |
| Clicks.ClickCounts | controller/apiController.js:107-149 | a click adds 1 to the total, to the visit's day only, and to both counters of its OS and of its device name only; the visitor list gains the address only |
| Clicks.ClickKeepsConsistent | controller/apiController.js:94-149 | a click keeps the record invariants: one bucket per day and one entry per name, bucket counts and each breakdown summing to the total, equal counters, a duplicate-free visitor list no longer than the total |
| Clicks.ThreeClicksOneDay | controller/apiController.js:94-149 | three same-day clicks from two addresses on a fresh record give 3 clicks, 2 visitors, one bucket of 3 and one OS and one device entry of 3 |
| Rollups.AnalyticsTopic | controller/apiController.js:157-179 | 404 "Analytics not found for the alias" exactly when the alias has no record; otherwise the record's counts and lists, with the visitor list replaced by its length |
| Rollups.ReportConsistent | controller/apiController.js:164-174 | the report of a consistent record has no more visitors than clicks, and its buckets and breakdowns each sum to its click total |
| Rollups.ReportAfterClick | controller/apiController.js:94-114 | after a click, the alias's report exists, shows one more click than before, and one more visitor exactly when the address was new |
| Rollups.SumOfRemove | controller/apiController.js:196-211 | taking one short URL out of the query result takes exactly its contribution out of every rollup sum |
| Rollups.SumOfPermutation | controller/apiController.js:196-211 | every rollup sum is the same for any order in which the query returns the short URLs |
| Rollups.UrlStats | controller/apiController.js:196-210 | the `urls` list has exactly as many entries as the query result has short URLs with a record, so no more than the query result |
| Rollups.UrlStatsEntries | controller/apiController.js:196-210 | every entry is the short URL of a queried alias that has a record, with that record's click and visitor counts; every queried short URL with a record has its entry |
| Rollups.UrlStatsConcat | controller/apiController.js:196-210 | the list for a concatenated query result is the concatenation of the lists, so entries follow the order of the query result |
| Rollups.UrlStatsOne | controller/apiController.js:199-209 | one short URL gets one entry if its alias has a record and none otherwise |
| Rollups.UrlStatsAddUp | controller/apiController.js:196-218 | the per-URL entries of the topic report add up to its click and visitor totals |
| Rollups.AnalyticsTopicById | controller/apiController.js:181-223 | 404 "No short URLs found for this topic" exactly when the topic has no short URLs; otherwise clicks, visitors and per-day counts are summed over the aliases that have a record (visitors without cross-alias de-duplication); aliases without one add nothing and get no `urls` entry; the merged series has one bucket per day and, on consistent records, sums to the click total |
| Rollups.OverallStep | controller/apiController.js:241-270 | folding in one more short URL keeps the running totals, series and breakdowns equal to the sums over the short URLs seen so far |
| Rollups.AnalyticsOverall | controller/apiController.js:225-284 | 404 "No short URLs found for the user" exactly when the user has no short URLs; otherwise `totalUrls` counts all of them; clicks, visitors, per-day counts and both counters of every OS and device name are summed over the aliases that have a record; days and names stay distinct; on consistent records, series and breakdowns sum to the click total and counters stay equal |
| Service.ShortUrlInjective | controller/apiController.js:47 | two aliases with the same short URL are the same alias |
| Service.ShortUrlsUnique | models/ShortUrl.js:8-12 | in a valid registry no two records share a short URL |
| Service.StoreUpdate | controller/apiController.js:151 | saving a consistent record under a registered alias keeps the analytics store valid |
| Service.SecondCreateFailsAsWritten | models/ShortUrl.js:13-16 | as written, once one short URL is registered every create fails, and one with a long URL, an unused alias and a user fails with 500 "Server error" (see Findings) |
| Service.Shortener.CreateShortUrl | controller/apiController.js:32-66 | with the unique-index collision of Findings corrected: 400 "longUrl is required" for a missing or empty long URL; 400 "Alias already in use" when the chosen alias (the custom alias if non-empty, else the generated one) is registered; 500 "Server error" when the record fails the required `userId`; otherwise exactly one record is added under the alias, with `shortUrl` `http://localhost:<port>/<alias>`, `topic` null unless given, the creation time, and that short URL and time returned; the registry invariants are kept and the store is untouched |
| Service.Shortener.Redirect | controller/apiController.js:68-156 | 404 "Short URL not founds" for an unregistered alias with no change to either collection; otherwise the redirect target is the record's long URL, and the store holds the clicked record (a fresh one on the first click) under the alias and is otherwise unchanged; the registry is untouched and the invariants are kept |

## Findings

| source | as written | input that shows it | evidently intended | confidence | as-written member | corrected member |
|---|---|---|---|---|---|---|
| models/ShortUrl.js:13-16 | `customAlias` has a unique, non-sparse index, and createShortApi (controller/apiController.js:51-58) never sets the field, so every record is indexed under null | two creates with different aliases: the second save violates the index, and the request is answered 500 "Server error" | custom aliases are unique only among records that have one, so a create with a long URL, an unused alias and a user succeeds, whatever else is registered | medium; depends on MongoDB building the index, which Mongoose does by default; not executed | Service.SecondCreateFailsAsWritten | Service.Shortener.CreateShortUrl |

## Left out

- MongoDB persistence is replaced by the two maps. Each request runs as one atomic step, so
  the lost update that two concurrent clicks can cause between the load and the save
  (controller/apiController.js:94-151) is not modelled.
- Failures of the database calls themselves are not modelled. This covers the
  "Internal server error" answers of the three report handlers
  (controller/apiController.js:175-178, 219-222, 280-283).
- Service.Shortener.Redirect: a failing `analyticsData.save()` is not modelled. The schema
  requires `osName` and `deviceName` (models/Analytics.js:31-34, 47-50). The `useragent`
  parser never returns an empty family name (it falls back to "Other"). So in the source
  the save cannot fail on them. The model takes the names as parameters and accepts the
  empty string as well.
- The Redis cache writes (controller/apiController.js:20-24, 60, 152) are not modelled. They
  are fire-and-forget, and nothing reads them back.
- The geolocation lookup (controller/apiController.js:83-89) is not modelled. Its result is
  never used and its failure is swallowed.
- The `useragent` parser (controller/apiController.js:306-314) is not modelled. The OS and
  device names are parameters of `Redirect`.
- `generateAlias` (controller/apiController.js:286-288) draws random bytes. The generated
  alias is a parameter of `CreateShortUrl`.
- JavaScript `Date` objects and ISO formatting are replaced by millisecond integers and the
  day number. The unused `startDate` (controller/apiController.js:116-118) is left out.
- Counts are unbounded naturals. The IEEE 754 doubles that hold them in the source lose
  precision only beyond 2^53 clicks.
- The queries `ShortUrl.find({ topic })` and `ShortUrl.find({ userId })`
  (controller/apiController.js:185, 229) are not modelled. Each rollup takes their result as
  a parameter. `SumOfPermutation` shows that the order of that result does not matter.
- Rollups.AnalyticsTopicById: the order of the merged series is not stated, only its
  per-day counts and distinct days.
- Rollups.AnalyticsOverall: the order of the merged series and breakdowns is not stated,
  only their per-day and per-name counts and distinctness.
- In the rollups, `push(item)`, `push(os)` and `push(device)`
  (controller/apiController.js:256, 266, 297) push the loaded objects by reference, and later
  merges mutate them. Those objects are loaded afresh per alias and never saved, so the model
  uses values and gets the same responses.
- Series.MergeClicksByDate: the source updates its first argument in place and returns it.
  The model returns a new sequence. Every caller assigns the result back to the variable it
  passed, so the difference is not observable.
- Service.Shortener.CreateShortUrl: the model's create follows the corrected behaviour of
  Findings. The source never writes `customAlias`, and the field's unique index
  (models/ShortUrl.js:13-16) is not sparse, so every record is indexed under null. As
  written, every save after the first fails with a duplicate-key error, and the handler
  answers 500 "Server error" (controller/apiController.js:59-64). `CreateAsWritten` models
  that answer.
- Uniqueness of `alias` (models/ShortUrl.js:21) is given by the registry being a map keyed
  by alias. Its `null` default never applies, because the controller always sets an alias.
- The `timestamps` option of the Analytics schema (models/Analytics.js:61) adds bookkeeping
  fields that no handler reads; they are not modelled.
- The HTTP layer is not part of this model: routes/apiRoutes.js (routing, rate limiter,
  token check), routes/authRoutes.js (the OAuth flow), app.js (startup) and
  models/User.js (used only by the OAuth flow).
