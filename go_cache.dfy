/**
 * The in-memory TTL cache that the core keeps its Spotify clients
 * (`kaszka`) and its rate limiters (`limiterSet`) in: the semantics of
 * github.com/patrickmn/go-cache, with the clock made an explicit integer
 * (nanoseconds) and the background janitor left out. An entry whose expiry
 * has passed is invisible to `Get` and `Add`, exactly as if it were absent.
 */
module GoCache {
  import opened Wrappers

  /** Durations handed to `Set` and `Add`: 0 means "the cache's default". */
  const DefaultExpiration: int := 0
  /** A negative duration means "never expires". */
  const NoExpiration: int := -1

  datatype Expiry = Never | At(instant: int)

  datatype Item<V> = Item(value: V, expiry: Expiry)

  /** An item is live at `now` unless it carries an expiry instant already passed. */
  predicate Alive<V>(item: Item<V>, now: int) {
    item.expiry.Never? || now <= item.expiry.instant
  }

  /** What a lookup of `k` at `now` sees. */
  function Lookup<V>(items: map<string, Item<V>>, k: string, now: int): Option<V> {
    if k in items && Alive(items[k], now) then Some(items[k].value) else None
  }

  /**
   * The expiry an entry stored at `now` for duration `d` receives, in a
   * cache whose default duration is `default`: 0 selects the default, and a
   * duration that is then not positive never expires.
   */
  function ExpiryFor(d: int, default: int, now: int): (e: Expiry)
    ensures d > 0 ==> e == At(now + d)
    ensures d < 0 ==> e == Never
    ensures d == DefaultExpiration ==> (e.At? <==> default > 0)
  {
    var effective := if d == DefaultExpiration then default else d;
    if effective > 0 then At(now + effective) else Never
  }

  /** An entry stored for a positive duration is found until it elapses, and missed after. */
  lemma StoredThenLooked<V>(items: map<string, Item<V>>, k: string, x: V, d: int, default: int, now: int, later: int)
    requires d > 0 && now <= later
    ensures Lookup(items[k := Item(x, ExpiryFor(d, default, now))], k, later)
            == if later <= now + d then Some(x) else None
  {
  }

  /** Whatever the duration, an entry is live at the instant it is stored. */
  lemma StoredIsLive<V>(items: map<string, Item<V>>, k: string, x: V, d: int, default: int, now: int)
    ensures Lookup(items[k := Item(x, ExpiryFor(d, default, now))], k, now) == Some(x)
  {
  }

  class TtlCache<V> {
    var items: map<string, Item<V>>
    /** The duration used when `DefaultExpiration` is asked for. */
    const defaultExpiration: int

    /** `cache.New(defaultExpiration, cleanupInterval)`; a zero default means "never". */
    constructor (defaultExpiration: int)
      ensures items == map[]
      ensures this.defaultExpiration == if defaultExpiration == 0 then NoExpiration else defaultExpiration
    {
      items := map[];
      this.defaultExpiration := if defaultExpiration == 0 then NoExpiration else defaultExpiration;
    }

    /** `k` holds an entry that has not expired at `now`. */
    predicate Live(k: string, now: int)
      reads this
    {
      Lookup(items, k, now).Some?
    }

    /** The expiry that `Set(k, x, d)` at `now` gives its entry. */
    function ExpiryAt(d: int, now: int): Expiry {
      ExpiryFor(d, defaultExpiration, now)
    }

    method Get(k: string, now: int) returns (v: Option<V>)
      ensures v.Some? <==> k in items && Alive(items[k], now)
      ensures v.Some? ==> v.value == items[k].value
    {
      if k in items && Alive(items[k], now) {
        v := Some(items[k].value);
      } else {
        v := None;
      }
    }

    /** Stores `x` under `k`, replacing whatever was there, live or not. */
    method Set(k: string, x: V, d: int, now: int)
      modifies this
      ensures items == old(items)[k := Item(x, ExpiryAt(d, now))]
    {
      items := items[k := Item(x, ExpiryAt(d, now))];
    }

    /** `Set` with the cache's default duration. */
    method SetDefault(k: string, x: V, now: int)
      modifies this
      ensures items == old(items)[k := Item(x, ExpiryAt(DefaultExpiration, now))]
    {
      Set(k, x, DefaultExpiration, now);
    }

    /**
     * Stores `x` under `k` only if `k` has no live entry; otherwise reports
     * an error ("Item already exists") and changes nothing.
     */
    method Add(k: string, x: V, d: int, now: int) returns (rejected: bool)
      modifies this
      ensures rejected == old(Live(k, now))
      ensures items == if rejected then old(items) else old(items)[k := Item(x, ExpiryAt(d, now))]
    {
      rejected := Live(k, now);
      if !rejected {
        Set(k, x, d, now);
      }
    }
  }
}
