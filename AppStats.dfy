/**
 * The second, divergent copy of the store (app/utils/stats.js).  It keeps
 * its blob under the slot `@meditation_stats`, answers `{}` where the other
 * copy answers `{'慈悲心': 0}`, and never raises: every failure, including a
 * rejected write, is logged and answered with `{}`.  Its increment returns
 * the whole updated day record instead of the count.
 */
module AppStats {
  import opened Results
  import opened DateKeys
  import opened DailyStats
  import opened KeyValueStorage

  const STATS_KEY: string := "@meditation_stats"

  /** True when the slot holds unparseable text, so that reading it throws. */
  predicate HoldsGarbage(items: map<string, Text>) {
    STATS_KEY in items && items[STATS_KEY] == Garbage
  }

  /** The blob this copy starts from: the stored one, or `{}` for null or "". */
  function BaseBlob(items: map<string, Text>): Blob {
    match Lookup(items, STATS_KEY)
    case Some(Json(b)) => b
    case _ => map[]
  }

  /**
   * Today's record, or `{}` when storage is empty, unreadable or unparseable
   * or today has no record.  Storage is not written.
   */
  method GetTodayStats(s: Storage, day: int, readFails: bool) returns (r: DayRecord)
    ensures readFails || HoldsGarbage(s.items) ==> r == map[]
    ensures !readFails && !HoldsGarbage(s.items) ==> r == RecordOf(BaseBlob(s.items), Key(day))
  {
    var got := s.GetItem(STATS_KEY, readFails);
    if got.Err? {
      return map[];
    }
    var stats: Blob;
    match got.value {
      case Some(Garbage) =>
        return map[];   // JSON.parse throws; the error is logged
      case Some(Json(b)) =>
        stats := b;
      case _ =>
        stats := map[];
    }
    var today := Key(day);
    r := if today in stats then stats[today] else map[];
  }

  /**
   * Bumps counter `statName` of day `day` and writes the whole blob back
   * under `@meditation_stats`; returns today's updated record.  A rejected
   * read, unparseable text or a rejected write leaves storage unchanged and
   * returns `{}` instead of raising.
   */
  method IncrementStat(s: Storage, statName: string, day: int, readFails: bool, writeFails: bool)
    returns (r: DayRecord)
    modifies s
    ensures readFails || HoldsGarbage(old(s.items)) || writeFails ==>
              r == map[] && s.items == old(s.items)
    ensures !readFails && !HoldsGarbage(old(s.items)) && !writeFails ==>
              var written := Increment(BaseBlob(old(s.items)), Key(day), statName);
              && s.items == old(s.items)[STATS_KEY := Json(written)]
              && r == written[Key(day)]
    ensures r == map[] <==> s.items == old(s.items)
  {
    var got := s.GetItem(STATS_KEY, readFails);
    if got.Err? {
      return map[];
    }
    var stats: Blob;
    match got.value {
      case Some(Garbage) =>
        return map[];   // JSON.parse throws before anything is written
      case Some(Json(b)) =>
        stats := b;
      case _ =>
        stats := map[];
    }
    ghost var base := stats;
    var today := Key(day);
    if today !in stats {
      stats := stats[today := map[]];
    }
    assert stats == base[today := RecordOf(base, today)];
    stats := stats[today := stats[today][statName := (if statName in stats[today] then stats[today][statName] else 0) + 1]];
    assert stats == Increment(base, today, statName);
    var ok := s.SetItem(STATS_KEY, Json(stats), writeFails);
    if !ok {
      return map[];   // the rejected write is logged and swallowed
    }
    r := stats[today];
  }

  /** An increment always leaves today's record non-empty, holding the counter. */
  lemma IncrementedRecordHoldsCounter(b: Blob, day: int, statName: string)
    ensures Key(day) in Increment(b, Key(day), statName)
    ensures statName in Increment(b, Key(day), statName)[Key(day)]
    ensures Increment(b, Key(day), statName)[Key(day)] != map[]
  {
  }
}
