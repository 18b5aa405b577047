/**
 * The device's persistent string-keyed storage (AsyncStorage), reduced to a
 * map from storage key to stored text.  Whether a call succeeds is not the
 * program's decision, so every call takes the outcome as a parameter
 * `fails`; a rejected write leaves storage as it was.
 */
module KeyValueStorage {
  import opened Results
  import opened DailyStats

  /** The text stored under `key`, or `None` when nothing is (`null`). */
  function Lookup(items: map<string, Text>, key: string): Option<Text> {
    if key in items then Some(items[key]) else None
  }

  class Storage {
    var items: map<string, Text>

    constructor ()
      ensures items == map[]
    {
      items := map[];
    }

    method GetItem(key: string, fails: bool) returns (r: Result<Option<Text>, StoreError>)
      ensures fails ==> r == Err(ReadFailed)
      ensures !fails ==> r == Ok(Lookup(items, key))
    {
      if fails {
        r := Err(ReadFailed);
      } else if key in items {
        r := Ok(Some(items[key]));
      } else {
        r := Ok(None);
      }
    }

    method SetItem(key: string, value: Text, fails: bool) returns (ok: bool)
      modifies this
      ensures ok == !fails
      ensures items == if fails then old(items) else old(items)[key := value]
    {
      ok := !fails;
      if ok {
        items := items[key := value];
      }
    }

    method RemoveItem(key: string, fails: bool) returns (ok: bool)
      modifies this
      ensures ok == !fails
      ensures items == if fails then old(items) else old(items) - {key}
    {
      ok := !fails;
      if ok {
        items := items - {key};
      }
    }
  }
}
