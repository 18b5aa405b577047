# Singing bowl: daily statistics store and tap state

The singing-bowl app is a one-screen mobile app. Each tap on a bowl plays a
sound, shows a floating "慈悲心 +1" text and adds one to a counter for the
current day. The counters live in one serialized blob in the device's
key-value storage. The blob maps a day key to a day record, and a day record
maps a counter name to its count.

This project models that store and the screen state around it:

- `DailyStats` (`DailyStats.dfy`) holds the data model that both store copies
  share: `DayRecord`, `Blob`, and the stored text. The stored text is one of
  three things: the empty string, a serialized blob, or text that does not
  parse. It also defines the one update both copies perform, `Increment`, with
  its frame properties.
- `DateKeys` (`DateKeys.dfy`) maps a UTC day number to the key of its record,
  with a round trip and the proof that different days get different keys.
- `KeyValueStorage` (`KeyValueStorage.dfy`) is the device storage: a class
  whose single field maps storage keys to stored text. Whether each read,
  write or removal fails is passed in as a parameter.
- `MeditationStats` (`MeditationStats.dfy`) models `utils/meditationStats.js`,
  the copy the app uses. Its reads are lenient and its increment is strict.
- `AppStats` (`AppStats.dfy`) models `app/utils/stats.js`, the divergent copy.
  It has a different slot, answers `{}` by default, and never raises.
- `TapScreen` (`TapScreen.dfy`) models the state logic of `app/index.js`: the
  tap cooldown, the id counter for floating texts, appending and removing
  those texts, and the copy of today's record the screen shows.

Each store operation is a method over a `Storage` object. Its `ensures` give
the new storage contents and the result in terms of the old contents. The
properties those contents have are proved once, about `Increment` and the
other specification functions. The clock is a parameter: a day number for each
reading the code takes, plus the tap time in milliseconds.

Behaviour of the code that the model keeps:

- Both copies test the stored string for truthiness before parsing it. So an
  empty string acts exactly like a missing slot in every operation.
- `utils/meditationStats.js` resets a counter to 0 when it is absent or 0
  (`!x`), then adds 1. `app/utils/stats.js` computes `(x || 0) + 1`. For
  non-negative counts both give "old count, or 0, plus one", so both copies
  share `DailyStats.Increment`. This holds for counter names that are not
  property names inherited from `Object.prototype` (see "## Left out").
- In `utils/meditationStats.js`, `incrementStat` swallows a parse error and
  starts from `{}`. The write that follows then replaces all earlier history
  with today's record alone. In `app/utils/stats.js` a parse error aborts
  before anything is written.
- `loadTodayStats` in `app/index.js` has a fallback to `{'慈悲心': 0}` for a
  failed load. That fallback can never run, because `getTodayStats` in
  `utils/meditationStats.js` catches every failure and returns that record
  itself. The model calls the store and gets the same outcome.
- `handleIncrementStat` ignores its tap coordinates except in a log line. Every
  floating text starts at (200, 350).

## Model

| member | source | states |
|---|---|---|
| `DailyStats.Increment` | utils/meditationStats.js:27-36 | today's record is created if missing; the named counter (0 if absent) goes up by exactly one; every other counter of today and every other day's record is unchanged, and no other key appears |
| `DailyStats.IncrementTimesCount` | utils/meditationStats.js:28-36 | n increments of one counter on one day raise it by exactly n and leave every other day's record unchanged |
| `DailyStats.IncrementOtherDay` | utils/meditationStats.js:12-30 | an increment on one day leaves the record of any different day unchanged (a new day starts an independent record) |
| `DateKeys.Key` | utils/meditationStats.js:12 | every UTC day has a non-empty key; the key is a decimal stand-in for the ISO date (see the `DateKeys.Key` line under "## Left out"), and `KeysDistinct` proves different days get different keys |
| `DateKeys.KeyRoundTrip` | utils/meditationStats.js:12 | the day key of a day reads back as that day |
| `DateKeys.KeysDistinct` | utils/meditationStats.js:12 | different days have different keys, so they never share a record |
| `MeditationStats.IncrementStat` | utils/meditationStats.js:9-49 | a rejected read or write is returned as that error with storage unchanged; otherwise the slot `meditation_stats` holds `Increment` of the leniently read blob, and the result is the count just written, which is the old count plus one; on a missing, empty or unparseable slot the result is 1 and the slot holds `{today: {name: 1}}` only |
| `MeditationStats.IncrementsFromFreshStore` | utils/meditationStats.js:9-44 | a slot holding n ≥ 1 increments of one counter on one day applied to `{}` (`IncrementTimes`) holds a blob, and its record for that day holds the counter at n; `RepeatedIncrementsScenario` shows n `IncrementStat` calls from a fresh store reach exactly that slot |
| `MeditationStats.RepeatedIncrementsScenario` | utils/meditationStats.js:9-85 | on a fresh store, n ≥ 1 successful `IncrementStat` calls for one counter on one day, then `GetTodayStats` on that day, answer a record holding the counter at n |
| `MeditationStats.FreshStoreScenario` | utils/meditationStats.js:9-85 | on a fresh store the first increment returns 1, today's record then reads `{'慈悲心': 1}`, and the second increment returns 2 |
| `MeditationStats.GetStats` | utils/meditationStats.js:51-62 | returns the stored blob; returns `{}` when the read fails or the slot is missing, empty or unparseable |
| `MeditationStats.GetTodayStats` | utils/meditationStats.js:64-85 | returns today's stored record; returns `{'慈悲心': 0}` when the read fails, the slot is missing, empty or unparseable, or today has no record; writes nothing |
| `MeditationStats.ClearStats` | utils/meditationStats.js:87-94 | a successful removal deletes the slot and nothing else; a rejected removal is swallowed and storage is unchanged |
| `MeditationStats.ClearedReadsEmpty` | utils/meditationStats.js:51-62 | once the slot is deleted, every lenient read of the history yields `{}` |
| `MeditationStats.GetLast7DaysStats` | utils/meditationStats.js:96-111 | exactly 7 entries, oldest first: entry j is day today-6+j with its stored record, or `{}` if it has none or the read fails; the last entry is today; the 7 keys are distinct |
| `AppStats.GetTodayStats` | app/utils/stats.js:5-19 | returns today's stored record; returns `{}` when the read fails, the slot is unparseable, the slot is missing or empty, or today has no record; writes nothing |
| `AppStats.IncrementStat` | app/utils/stats.js:21-45 | on success the slot `@meditation_stats` holds `Increment` of the stored blob (`{}` if missing or empty) and the result is today's whole updated record; a rejected read, unparseable text or a rejected write leaves storage unchanged and returns `{}`; the result is `{}` exactly when nothing was written |
| `AppStats.IncrementedRecordHoldsCounter` | app/utils/stats.js:29-40 | after an increment today's record exists, holds the counter, and so is never the `{}` that signals failure |
| `TapScreen.RemoveById` | app/index.js:190-192 | the result keeps every text whose id differs, with its multiplicity, drops every text with that id, and keeps the original order (it is a subsequence) |
| `TapScreen.RemoveKeepsIdsIncreasing` | app/index.js:190-192 | removing texts from a list ordered by id leaves it ordered by id |
| `TapScreen.App.constructor` | app/index.js:27-34 | the screen starts with no floating texts, an empty record, last tap time 0 and next id 0 |
| `TapScreen.App.LoadTodayStats` | app/index.js:164-174 | the screen shows today's stored record, or `{'慈悲心': 0}` when loading fails or there is none; nothing else changes |
| `TapScreen.App.HandleIncrementStat` | app/index.js:63-91 | if the increment raises, nothing changes (no text, same next id, storage unchanged); otherwise storage holds the increment, and the screen shows the record read back for the day of the second clock reading, which is `{'慈悲心': 0}` when that day has no record or the reload fails (so two readings on one day show the incremented record and two on either side of midnight show the new day's default); exactly one text with the old next id, `MESSAGES[0]` and start (200, 350) is appended, and the next id goes up by one; ids stay strictly increasing and below the next id |
| `TapScreen.App.HandlePress` | app/index.js:177-187 | a tap less than `COOLDOWN_TIME` (100 ms) after the last accepted tap changes nothing; an accepted tap sets the last tap time to its own time and then behaves as `HandleIncrementStat`, with the same two clock readings for the increment and the reload |
| `TapScreen.App.RemoveFloatingText` | app/index.js:190-192 | the list becomes `RemoveById` of the old list; the other state is unchanged and ids stay ordered |

## Left out

- DateKeys.Key: the day key is the decimal rendering of the UTC day number, not the `YYYY-MM-DD` string. The stores rely only on the key being a function of the day and injective, which the ISO date string also is.
- Calendar arithmetic is not modelled. `getLast7DaysStats` steps days with local-time `setDate` but renders them with UTC `toISOString`. Around a time-zone offset this can shift or repeat a date. The model steps plain UTC day numbers.
- JSON parsing and serialization: stored text is an abstract value. That value is a serialized blob, the empty string, or unparseable text. JSON that parses to something other than a nested map of non-negative integers (`null`, an array, a negative or fractional count) is not modelled.
- Asynchronous interleaving: every store operation runs atomically. The race between two increments in flight, where one can be lost, is not modelled. Neither is the stale `lastTapTime` a React closure can see between renders.
- Storage internals: the storage is a map, and the outcome of each call is a parameter. A rejected write is assumed to leave the stored value unchanged.
- Sound playback (`playSound`, audio setup), animations, the `FloatingText` component's timer, auto-play on a 5-second interval, styles and layout are not modelled. Neither are the settings and statistics modals, `components/StatsModal.js` and `components/SplashScreen.js`: they are presentation only.
- Counter names are assumed not to be property names that every JavaScript object inherits from `Object.prototype` (`toString`, `valueOf`, `constructor`, ...). For such a name the source's lookup finds an inherited function, skips the reset to 0 and joins strings on `+ 1`. The model counts from 0 for every name. The app itself only ever passes `'慈悲心'`.
- Console logging is not modelled.
- TapScreen.App.HandleIncrementStat: takes no tap coordinates, because the source only logs them.
