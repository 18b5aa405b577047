/**
 * The state logic of the main screen (app/index.js) without its UI: the tap
 * cooldown, the counter that numbers floating reward texts, the list of
 * texts on screen, and the copy of today's record the screen shows.  Sound,
 * animation and auto-play are not modelled; the clock and storage outcomes
 * are parameters.
 */
module TapScreen {
  import opened DateKeys
  import opened DailyStats
  import opened KeyValueStorage
  import MeditationStats

  datatype Message = Message(text: string, color: string)
  datatype Position = Position(x: int, y: int)

  /** A reward text floating above the bowl; `id` tells texts apart. */
  datatype FloatingText = FloatingText(id: nat, message: Message, startPosition: Position)

  const MESSAGES: seq<Message> := [Message("慈悲心 +1", "white")]

  /** Milliseconds a tap must follow the last accepted tap to be accepted. */
  const COOLDOWN_TIME: int := 100

  /** Where a new text starts: just above the centre of the bowl. */
  const BOWL_CENTER_X: int := 200
  const BOWL_TOP_Y: int := 350

  predicate IdsIncreasing(texts: seq<FloatingText>) {
    forall i, j :: 0 <= i < j < |texts| ==> texts[i].id < texts[j].id
  }

  predicate IdsBelow(texts: seq<FloatingText>, bound: nat) {
    forall i :: 0 <= i < |texts| ==> texts[i].id < bound
  }

  /** `a` is `b` with some elements left out, the rest in their order. */
  predicate Subsequence(a: seq<FloatingText>, b: seq<FloatingText>)
    decreases |b|
  {
    if a == [] then true
    else if b == [] then false
    else (a[0] == b[0] && Subsequence(a[1..], b[1..])) || Subsequence(a, b[1..])
  }

  /**
   * The list without the texts numbered `id`: every other text is kept, as
   * often as it occurs, in its original order.
   */
  function RemoveById(texts: seq<FloatingText>, id: nat): (r: seq<FloatingText>)
    ensures forall t :: multiset(r)[t] == if t.id == id then 0 else multiset(texts)[t]
    ensures Subsequence(r, texts)
    ensures forall t :: t in r ==> t in texts
    decreases |texts|
  {
    if texts == [] then []
    else
      var rest := RemoveById(texts[1..], id);
      assert texts == [texts[0]] + texts[1..];
      if texts[0].id != id then [texts[0]] + rest else rest
  }

  predicate IdsAbove(texts: seq<FloatingText>, bound: int) {
    forall i :: 0 <= i < |texts| ==> bound < texts[i].id
  }

  lemma {:induction false} RemoveKeepsIdsAbove(texts: seq<FloatingText>, id: nat, bound: int)
    requires IdsAbove(texts, bound)
    ensures IdsAbove(RemoveById(texts, id), bound)
    decreases |texts|
  {
    if texts != [] {
      RemoveKeepsIdsAbove(texts[1..], id, bound);
    }
  }

  /** Removing texts keeps the list ordered by id. */
  lemma {:induction false} RemoveKeepsIdsIncreasing(texts: seq<FloatingText>, id: nat)
    requires IdsIncreasing(texts)
    ensures IdsIncreasing(RemoveById(texts, id))
    decreases |texts|
  {
    if texts != [] {
      var tail := texts[1..];
      RemoveKeepsIdsIncreasing(tail, id);
      RemoveKeepsIdsAbove(tail, id, texts[0].id);
      if texts[0].id != id {
        ConsIncreasing(texts[0], RemoveById(tail, id));
      }
    }
  }

  lemma ConsIncreasing(t: FloatingText, rest: seq<FloatingText>)
    requires IdsAbove(rest, t.id) && IdsIncreasing(rest)
    ensures IdsIncreasing([t] + rest)
  {
    var r := [t] + rest;
    forall i, j | 0 <= i < j < |r| ensures r[i].id < r[j].id {
      assert r[j] == rest[j - 1];
      if i > 0 {
        assert r[i] == rest[i - 1];
      }
    }
  }

  class App {
    var floatingTexts: seq<FloatingText>
    var todayStats: DayRecord
    var lastTapTime: int
    var nextId: nat

    /** Texts are listed in the order they were created, each with an unused id. */
    ghost predicate Valid()
      reads this
    {
      IdsIncreasing(floatingTexts) && IdsBelow(floatingTexts, nextId)
    }

    constructor ()
      ensures Valid()
      ensures floatingTexts == [] && todayStats == map[] && lastTapTime == 0 && nextId == 0
    {
      floatingTexts := [];
      todayStats := map[];
      lastTapTime := 0;
      nextId := 0;
    }

    /**
     * Shows today's record.  Reading it cannot raise (the store answers
     * `{'慈悲心': 0}` itself on failure), so the screen's own fallback to
     * that record is never reached and the outcome is the same.
     */
    method LoadTodayStats(store: KeyValueStorage.Storage, day: int, readFails: bool)
      modifies this
      ensures floatingTexts == old(floatingTexts) && lastTapTime == old(lastTapTime) && nextId == old(nextId)
      ensures readFails ==> todayStats == MeditationStats.DefaultToday()
      ensures !readFails && MeditationStats.HoldsBlob(store.items) && Key(day) in MeditationStats.StoredBlob(store.items) ==>
                todayStats == MeditationStats.StoredBlob(store.items)[Key(day)]
      ensures !MeditationStats.HoldsBlob(store.items) || Key(day) !in MeditationStats.StoredBlob(store.items) ==>
                todayStats == MeditationStats.DefaultToday()
    {
      var stats := MeditationStats.GetTodayStats(store, day, readFails);
      todayStats := stats;
    }

    /**
     * Counts one more "慈悲心", reloads today's record and adds a floating
     * text with the next id.  The store reads the clock once for the
     * increment (`day`) and once more for the reload (`reloadDay`); when
     * UTC midnight falls between them the screen shows the new day's record.  If the increment raises, the error is logged
     * and nothing else happens: no text, no new id, storage unchanged.
     */
    method HandleIncrementStat(store: KeyValueStorage.Storage, day: int, reloadDay: int, readFails: bool, writeFails: bool, reloadFails: bool)
      requires Valid()
      modifies this, store
      ensures Valid()
      ensures lastTapTime == old(lastTapTime)
      ensures readFails || writeFails ==>
                && floatingTexts == old(floatingTexts) && nextId == old(nextId)
                && todayStats == old(todayStats) && store.items == old(store.items)
      ensures !readFails && !writeFails ==>
                var written := Increment(MeditationStats.StoredBlob(old(store.items)), Key(day), COMPASSION);
                && store.items == old(store.items)[MeditationStats.STATS_STORAGE_KEY := Json(written)]
                && todayStats == (if reloadFails || Key(reloadDay) !in written then MeditationStats.DefaultToday()
                                  else written[Key(reloadDay)])
                && (!reloadFails && reloadDay == day ==> COMPASSION in todayStats && todayStats == written[Key(day)])
                && nextId == old(nextId) + 1
                && floatingTexts == old(floatingTexts) + [FloatingText(old(nextId), MESSAGES[0], Position(BOWL_CENTER_X, BOWL_TOP_Y))]
    {
      var newCount := MeditationStats.IncrementStat(store, COMPASSION, day, readFails, writeFails);
      if newCount.Err? {
        return;   // logged and swallowed
      }
      var updatedStats := MeditationStats.GetTodayStats(store, reloadDay, reloadFails);
      todayStats := updatedStats;
      var id := nextId;
      nextId := nextId + 1;
      floatingTexts := floatingTexts + [FloatingText(id, MESSAGES[0], Position(BOWL_CENTER_X, BOWL_TOP_Y))];
    }

    /**
     * A tap on the bowl at time `currentTime`.  Within the cooldown of the
     * last accepted tap it is ignored; otherwise it becomes the last
     * accepted tap and counts as `HandleIncrementStat` does.
     */
    method HandlePress(currentTime: int, store: KeyValueStorage.Storage, day: int, reloadDay: int, readFails: bool, writeFails: bool, reloadFails: bool)
      requires Valid()
      modifies this, store
      ensures Valid()
      ensures currentTime - old(lastTapTime) < COOLDOWN_TIME ==>
                && lastTapTime == old(lastTapTime) && floatingTexts == old(floatingTexts)
                && nextId == old(nextId) && todayStats == old(todayStats) && store.items == old(store.items)
      ensures currentTime - old(lastTapTime) >= COOLDOWN_TIME ==> lastTapTime == currentTime
      ensures currentTime - old(lastTapTime) >= COOLDOWN_TIME && (readFails || writeFails) ==>
                && floatingTexts == old(floatingTexts) && nextId == old(nextId)
                && todayStats == old(todayStats) && store.items == old(store.items)
      ensures currentTime - old(lastTapTime) >= COOLDOWN_TIME && !readFails && !writeFails ==>
                var written := Increment(MeditationStats.StoredBlob(old(store.items)), Key(day), COMPASSION);
                && store.items == old(store.items)[MeditationStats.STATS_STORAGE_KEY := Json(written)]
                && todayStats == (if reloadFails || Key(reloadDay) !in written then MeditationStats.DefaultToday()
                                  else written[Key(reloadDay)])
                && (!reloadFails && reloadDay == day ==> COMPASSION in todayStats && todayStats == written[Key(day)])
                && nextId == old(nextId) + 1
                && floatingTexts == old(floatingTexts) + [FloatingText(old(nextId), MESSAGES[0], Position(BOWL_CENTER_X, BOWL_TOP_Y))]
    {
      if currentTime - lastTapTime < COOLDOWN_TIME {
        return;
      }
      lastTapTime := currentTime;
      HandleIncrementStat(store, day, reloadDay, readFails, writeFails, reloadFails);
    }

    /** Takes the texts numbered `id` off the screen once their animation ends. */
    method RemoveFloatingText(id: nat)
      requires Valid()
      modifies this
      ensures Valid()
      ensures floatingTexts == RemoveById(old(floatingTexts), id)
      ensures todayStats == old(todayStats) && lastTapTime == old(lastTapTime) && nextId == old(nextId)
    {
      RemoveKeepsIdsIncreasing(floatingTexts, id);
      floatingTexts := RemoveById(floatingTexts, id);
    }
  }
}
