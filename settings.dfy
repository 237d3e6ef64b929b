/** "Reset local timer state" on the settings page (app/settings/page.tsx):
    every local-storage key the two timers write is removed, every other key
    is kept. */
module Settings {
  import opened Common
  import opened Timers

  /** A key one of the timers writes under. */
  predicate IsTimerKey(k: string) {
    StartsWith(k, PomoPrefix) || StartsWith(k, TrackPrefix)
  }

  /** The storage after the reset. */
  function Reset(items: map<string, string>): (r: map<string, string>)
    ensures forall k :: k in r <==> k in items && !IsTimerKey(k)
    ensures forall k :: k in r ==> r[k] == items[k]
  {
    map k | k in items && !IsTimerKey(k) :: items[k]
  }

  // ----- properties -----

  /** Resetting twice is resetting once. */
  lemma ResetIdempotent(items: map<string, string>)
    ensures Reset(Reset(items)) == Reset(items)
  {
  }

  /** Every key of either timer, for any selection, is gone afterwards, and
      a key outside both prefixes keeps its value. */
  lemma ResetClearsTimers(items: map<string, string>, p: Props, k: string)
    ensures StorageKey(TrackPrefix, p) !in Reset(items)
    ensures StorageKey(PomoPrefix, p) !in Reset(items)
    ensures k in items && !StartsWith(k, PomoPrefix) && !StartsWith(k, TrackPrefix) ==>
      k in Reset(items) && Reset(items)[k] == items[k]
  {
  }

  /** The browser's local storage as a mutable object. */
  class LocalStorage {
    var items: map<string, string>

    constructor (initial: map<string, string>)
      ensures items == initial
    {
      items := initial;
    }

    /** `removeItem(k)`. */
    method RemoveItem(k: string)
      modifies this
      ensures items == old(items) - {k}
    {
      items := items - {k};
    }

    /** `resetLocal`: one pass over the keys present at the start, removing
        those with a timer prefix. */
    method ResetLocal()
      modifies this
      ensures items == Reset(old(items))
    {
      var keys := items.Keys;
      while keys != {}
        invariant keys <= old(items).Keys
        invariant forall k :: k in items <==> k in old(items) && (k in keys || !IsTimerKey(k))
        invariant forall k :: k in items ==> items[k] == old(items)[k]
        decreases keys
      {
        var k :| k in keys;
        if IsTimerKey(k) {
          RemoveItem(k);
        }
        keys := keys - {k};
      }
    }
  }
}
