/**
 * The data model shared by both statistics stores: a blob maps a day key to
 * a day record, and a day record maps a counter name to its count.  A counter
 * missing from a record counts as 0.
 */
module DailyStats {
  import opened DateKeys

  type DayRecord = map<string, nat>
  type Blob = map<DateKey, DayRecord>

  /** The one counter the application increments ("compassion"). */
  const COMPASSION: string := "慈悲心"

  /**
   * What a storage slot can hold: the empty string, the serialisation of a
   * blob, or text that does not parse.  Writing `Json(b)` stands for
   * `JSON.stringify(b)`, and reading it back yields `b` again.
   */
  datatype Text = EmptyText | Json(blob: Blob) | Garbage

  /** Why a storage call was rejected. */
  datatype StoreError = ReadFailed | WriteFailed

  /** The count of `name` in `r`; an absent counter counts as 0. */
  function CountOf(r: DayRecord, name: string): nat {
    if name in r then r[name] else 0
  }

  /** The record of day `k` in `b`; a day with no record has the empty one. */
  function RecordOf(b: Blob, k: DateKey): DayRecord {
    if k in b then b[k] else map[]
  }

  /**
   * The blob after one increment of counter `name` on day `k`: the day's
   * record is created if missing, the counter starts from 0 if missing, and
   * it goes up by exactly one.  Nothing else changes.
   */
  function Increment(b: Blob, k: DateKey, name: string): (b': Blob)
    ensures b'.Keys == b.Keys + {k}
    ensures RecordOf(b', k).Keys == RecordOf(b, k).Keys + {name}
    ensures CountOf(RecordOf(b', k), name) == CountOf(RecordOf(b, k), name) + 1
    ensures forall other :: other in RecordOf(b, k) && other != name ==>
              RecordOf(b', k)[other] == RecordOf(b, k)[other]
    ensures forall d :: d in b && d != k ==> b'[d] == b[d]
  {
    b[k := RecordOf(b, k)[name := CountOf(RecordOf(b, k), name) + 1]]
  }

  /** The blob after `n` increments of `name` on day `k`, one after another. */
  function IncrementTimes(b: Blob, k: DateKey, name: string, n: nat): Blob
    decreases n
  {
    if n == 0 then b else Increment(IncrementTimes(b, k, name, n - 1), k, name)
  }

  /** `n` increments raise the counter by `n` and leave every other day alone. */
  lemma {:induction false} IncrementTimesCount(b: Blob, k: DateKey, name: string, n: nat)
    ensures CountOf(RecordOf(IncrementTimes(b, k, name, n), k), name) == CountOf(RecordOf(b, k), name) + n
    ensures forall d :: d != k ==> RecordOf(IncrementTimes(b, k, name, n), d) == RecordOf(b, d)
    decreases n
  {
    if n > 0 {
      IncrementTimesCount(b, k, name, n - 1);
    }
  }

  /** Increments on two different days land in two independent records. */
  lemma IncrementOtherDay(b: Blob, day: int, other: int, name: string)
    requires day != other
    ensures RecordOf(Increment(b, Key(day), name), Key(other)) == RecordOf(b, Key(other))
  {
    KeysDistinct();
  }
}
