/**
 * The statistics store the application uses (utils/meditationStats.js).
 *
 * Every operation works on the one storage slot `meditation_stats`.  Reads
 * are lenient: missing, empty or unparseable text reads as "no data", and
 * a rejected read yields the default answer.  `IncrementStat` is strict: a
 * rejected read or write is passed on to the caller.
 */
module MeditationStats {
  import opened Results
  import opened DateKeys
  import opened DailyStats
  import opened KeyValueStorage

  const STATS_STORAGE_KEY: string := "meditation_stats"

  /** What `GetTodayStats` answers when there is nothing to show. */
  function DefaultToday(): DayRecord {
    map[COMPASSION := 0]
  }

  /** One entry of the seven-day history. */
  datatype DayEntry = DayEntry(date: DateKey, stats: DayRecord)

  /** True when the slot holds text that parses to a blob. */
  predicate HoldsBlob(items: map<string, Text>) {
    STATS_STORAGE_KEY in items && items[STATS_STORAGE_KEY].Json?
  }

  /** The blob a lenient read sees: the stored one, or `{}` for anything else. */
  function StoredBlob(items: map<string, Text>): Blob {
    match Lookup(items, STATS_STORAGE_KEY)
    case Some(Json(b)) => b
    case _ => map[]
  }

  /**
   * Reads the blob, bumps counter `attributeName` of day `day`, writes the
   * whole blob back and returns the new count.  A rejected read or write is
   * returned as the error and storage is left as it was.  Text that does not
   * parse is treated as `{}`, so the write then drops all earlier history.
   */
  method IncrementStat(s: Storage, attributeName: string, day: int, readFails: bool, writeFails: bool)
    returns (r: Result<nat, StoreError>)
    modifies s
    ensures readFails ==> r == Err(ReadFailed) && s.items == old(s.items)
    ensures !readFails && writeFails ==> r == Err(WriteFailed) && s.items == old(s.items)
    ensures !readFails && !writeFails ==>
              var written := Increment(StoredBlob(old(s.items)), Key(day), attributeName);
              && s.items == old(s.items)[STATS_STORAGE_KEY := Json(written)]
              && r == Ok(written[Key(day)][attributeName])
              && r.value == CountOf(RecordOf(StoredBlob(old(s.items)), Key(day)), attributeName) + 1
    ensures !readFails && !writeFails && !HoldsBlob(old(s.items)) ==>
              r == Ok(1) && s.items == old(s.items)[STATS_STORAGE_KEY := Json(map[Key(day) := map[attributeName := 1]])]
  {
    var today := Key(day);
    var got := s.GetItem(STATS_STORAGE_KEY, readFails);
    if got.Err? {
      return Err(got.error);
    }
    ghost var base := StoredBlob(s.items);
    var stats: Blob := map[];
    match got.value {
      case Some(Json(b)) =>
        stats := b;
      case _ =>
        // null or "" is skipped; text that fails to parse is logged and ignored
    }
    assert stats == base;
    if today !in stats {
      stats := stats[today := map[]];
    }
    assert stats == base[today := RecordOf(base, today)];
    if attributeName !in stats[today] || stats[today][attributeName] == 0 {
      stats := stats[today := stats[today][attributeName := 0]];
    }
    ghost var count := CountOf(RecordOf(base, today), attributeName);
    assert stats[today][attributeName] == count;
    assert stats == base[today := stats[today]];
    assert stats[today][attributeName := count + 1] == RecordOf(base, today)[attributeName := count + 1];
    stats := stats[today := stats[today][attributeName := stats[today][attributeName] + 1]];
    assert stats == Increment(base, today, attributeName);
    var ok := s.SetItem(STATS_STORAGE_KEY, Json(stats), writeFails);
    if !ok {
      return Err(WriteFailed);
    }
    return Ok(stats[today][attributeName]);
  }

  /**
   * From a fresh store, `n` successful increments of `name` on one day leave
   * the slot holding `IncrementTimes({}, Key(day), name, n)`; today's record
   * read back from that slot then holds `name` with count `n`.
   */
  lemma {:induction false} IncrementsFromFreshStore(day: int, name: string, n: nat)
    requires n >= 1
    ensures var items := map[STATS_STORAGE_KEY := Json(IncrementTimes(map[], Key(day), name, n))];
            && HoldsBlob(items)
            && Key(day) in StoredBlob(items)
            && name in StoredBlob(items)[Key(day)]
            && StoredBlob(items)[Key(day)][name] == n
  {
    IncrementTimesCount(map[], Key(day), name, n);
    assert IncrementTimes(map[], Key(day), name, n) == Increment(IncrementTimes(map[], Key(day), name, n - 1), Key(day), name);
  }

  /**
   * `n` successful increments of `name` on one day, starting from a fresh
   * store, and then a read of today's record: the record shows `n`.
   */
  method RepeatedIncrementsScenario(name: string, day: int, n: nat) returns (today: DayRecord)
    requires n >= 1
    ensures name in today && today[name] == n
  {
    var s := new Storage();
    var i := 0;
    while i < n
      invariant 0 <= i <= n
      invariant s.items == FreshSlot(name, day, i)
    {
      FreshSlotStep(name, day, i);
      var _ := IncrementStat(s, name, day, false, false);
      i := i + 1;
    }
    IncrementsFromFreshStore(day, name, n);
    today := GetTodayStats(s, day, false);
  }

  /** Storage after `i` successful increments of `name` on `day` from a fresh store. */
  function FreshSlot(name: string, day: int, i: nat): map<string, Text> {
    if i == 0 then map[] else map[STATS_STORAGE_KEY := Json(IncrementTimes(map[], Key(day), name, i))]
  }

  lemma FreshSlotStep(name: string, day: int, i: nat)
    ensures FreshSlot(name, day, i)[STATS_STORAGE_KEY := Json(Increment(StoredBlob(FreshSlot(name, day, i)), Key(day), name))]
            == FreshSlot(name, day, i + 1)
  {
    if i > 0 {
      assert StoredBlob(FreshSlot(name, day, i)) == IncrementTimes(map[], Key(day), name, i);
    }
  }

  /** The whole history, or `{}` when storage is empty, unreadable or unparseable. */
  method GetStats(s: Storage, readFails: bool) returns (r: Blob)
    ensures readFails ==> r == map[]
    ensures !readFails && HoldsBlob(s.items) ==> r == s.items[STATS_STORAGE_KEY].blob
    ensures !HoldsBlob(s.items) ==> r == map[]
  {
    var got := s.GetItem(STATS_STORAGE_KEY, readFails);
    if got.Err? {
      return map[];
    }
    match got.value
    case Some(Json(b)) =>
      r := b;
    case Some(Garbage) =>
      r := map[];   // JSON.parse throws; the error is logged
    case _ =>
      r := map[];
  }

  /**
   * Today's record.  It is `{'慈悲心': 0}` when storage is empty, unreadable
   * or unparseable, or when today has no record yet.  Storage is not written.
   */
  method GetTodayStats(s: Storage, day: int, readFails: bool) returns (r: DayRecord)
    ensures !readFails && HoldsBlob(s.items) && Key(day) in s.items[STATS_STORAGE_KEY].blob ==>
              r == s.items[STATS_STORAGE_KEY].blob[Key(day)]
    ensures readFails || !HoldsBlob(s.items) || Key(day) !in s.items[STATS_STORAGE_KEY].blob ==>
              r == DefaultToday()
  {
    var today := Key(day);
    var got := s.GetItem(STATS_STORAGE_KEY, readFails);
    if got.Err? {
      return DefaultToday();
    }
    match got.value
    case None =>
      r := DefaultToday();
    case Some(EmptyText) =>
      r := DefaultToday();
    case Some(Garbage) =>
      r := DefaultToday();   // JSON.parse throws; the error is logged
    case Some(Json(stats)) =>
      r := if today in stats then stats[today] else DefaultToday();
  }

  /** Deletes the whole blob; a rejected removal is logged and ignored. */
  method ClearStats(s: Storage, fails: bool)
    modifies s
    ensures s.items == if fails then old(s.items) else old(s.items) - {STATS_STORAGE_KEY}
  {
    var _ := s.RemoveItem(STATS_STORAGE_KEY, fails);
  }

  /** After a successful clear every lenient read sees the empty history. */
  lemma ClearedReadsEmpty(items: map<string, Text>)
    ensures StoredBlob(items - {STATS_STORAGE_KEY}) == map[]
    ensures !HoldsBlob(items - {STATS_STORAGE_KEY})
  {
  }

  /**
   * The records of the seven days ending with `today`, oldest first: entry
   * `j` is day `today - 6 + j`, with `{}` for a day that has no record.
   */
  method GetLast7DaysStats(s: Storage, today: int, readFails: bool) returns (r: seq<DayEntry>)
    ensures |r| == 7
    ensures forall j :: 0 <= j < 7 ==>
              r[j].date == Key(today - 6 + j) &&
              r[j].stats == (if readFails then map[] else RecordOf(StoredBlob(s.items), r[j].date))
    ensures r[6].date == Key(today)
    ensures forall i, j :: 0 <= i < j < 7 ==> r[i].date != r[j].date
  {
    var stats := GetStats(s, readFails);
    var dates: seq<DateKey> := [];
    var i := 6;
    while i >= 0
      invariant -1 <= i <= 6
      invariant |dates| == 6 - i
      invariant forall j :: 0 <= j < |dates| ==> dates[j] == Key(today - 6 + j)
    {
      dates := dates + [Key(today - i)];
      i := i - 1;
    }
    r := seq(|dates|, j requires 0 <= j < |dates| => DayEntry(dates[j], RecordOf(stats, dates[j])));
    KeysDistinct();
  }

  /**
   * A fresh store: the first increment returns 1, today's record is then
   * `{'慈悲心': 1}`, and the second increment returns 2.
   */
  method FreshStoreScenario(day: int) returns (first: Result<nat, StoreError>, today: DayRecord, second: Result<nat, StoreError>)
    ensures first == Ok(1)
    ensures today == map[COMPASSION := 1]
    ensures second == Ok(2)
  {
    var s := new Storage();
    first := IncrementStat(s, COMPASSION, day, false, false);
    today := GetTodayStats(s, day, false);
    second := IncrementStat(s, COMPASSION, day, false, false);
  }
}
