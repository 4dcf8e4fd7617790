/**
 * The PIN resolver used during ingestion: a village (and optional district)
 * is looked up in Redis, then in the process-local cache, then with the
 * postal lookup service; only a six-digit PIN from the lookup is written back
 * to both caches.
 */
module PinResolver {

  import opened Wrappers
  import opened Text
  import opened Postal

  /** Whether each Redis command succeeds on this call; a failed one is logged and ignored. */
  datatype RedisHealth = RedisHealth(getOk: bool, setOk: bool)

  /** Which tier produced the answer; `Skipped` means no tier was consulted at all. */
  datatype Tier = Skipped | FromRedis | FromLocal | FromLookup

  /** The local cache, by cache key, and Redis, by its own `pin:`-prefixed key. */
  datatype Caches = Caches(local: map<string, string>, redis: map<string, string>)

  datatype Resolution = Resolution(pin: Option<string>, tier: Tier, caches: Caches)

  const RedisPrefix := "pin:"

  /** `trim(lower(village)) + "-" + trim(lower(district || ""))`. */
  function CacheKey(village: string, district: Option<string>): string {
    ToLower(Trim(village)) + "-" + ToLower(Trim(OrEmpty(district)))
  }

  function RedisKey(key: string): string {
    RedisPrefix + key
  }

  /** `getCachedPin`: the Redis value, or none when the key is absent or the command failed. */
  function RedisGet(c: Caches, key: string, ok: bool): (v: Option<string>)
    ensures !ok ==> v.None?
    ensures v.Some? <==> ok && RedisKey(key) in c.redis
  {
    if ok && RedisKey(key) in c.redis then Some(c.redis[RedisKey(key)]) else None
  }

  /** `setCachedPin`: a failed command leaves Redis as it was. */
  function RedisSet(c: Caches, key: string, pin: string, ok: bool): (c': Caches)
    ensures c'.local == c.local
    ensures ok ==> c'.redis == c.redis[RedisKey(key) := pin]
    ensures !ok ==> c' == c
  {
    if ok then c.(redis := c.redis[RedisKey(key) := pin]) else c
  }

  /** `getPinCode` over the state of both caches; `lookup` answers a query by trimmed village name. */
  function Resolve(c: Caches, village: Option<string>, district: Option<string>,
                   health: RedisHealth, lookup: string -> PostalReply): Resolution
  {
    if IsBlank(village) then Resolution(None, Skipped, c)
    else
      var key := CacheKey(village.value, district);
      var fromRedis := RedisGet(c, key, health.getOk);
      if Truthy(fromRedis) then Resolution(fromRedis, FromRedis, c)
      else if key in c.local then Resolution(Some(c.local[key]), FromLocal, c)
      else
        var pin := PinFromReply(lookup(Trim(village.value)), district);
        if pin.Some? then
          Resolution(pin, FromLookup, RedisSet(c.(local := c.local[key := pin.value]), key, pin.value, health.setOk))
        else Resolution(None, FromLookup, c)
  }

  /** Whether Redis holds a usable (truthy) value under the key. */
  predicate RedisHit(c: Caches, key: string, health: RedisHealth) {
    Truthy(RedisGet(c, key, health.getOk))
  }

  // ---------------------------------------------------------------------
  // The cache key

  /** Surrounding whitespace on the village or on a given district does not change the key. */
  lemma {:induction false} CacheKeyIgnoresPadding(p: string, v: string, q: string,
                                                  d: Option<string>, p': string, q': string)
    requires AllSpace(p) && AllSpace(q) && AllSpace(p') && AllSpace(q')
    ensures var padded := if d.Some? then Some(p' + d.value + q') else None;
            CacheKey(p + v + q, padded) == CacheKey(v, d)
  {
    TrimPadded(p, v, q);
    if d.Some? {
      TrimPadded(p', d.value, q');
      if d.value == [] {
        assert Trim(OrEmpty(Some(p' + d.value + q'))) == Trim(OrEmpty(d));
      }
    }
  }

  /** Names that differ only in letter case share a key. */
  lemma {:induction false} CacheKeyIgnoresCase(v: string, v': string, d: Option<string>, d': Option<string>)
    requires ToLower(v) == ToLower(v')
    requires ToLower(OrEmpty(d)) == ToLower(OrEmpty(d'))
    ensures CacheKey(v, d) == CacheKey(v', d')
  {
    TrimLowerCommute(v);
    TrimLowerCommute(v');
    TrimLowerCommute(OrEmpty(d));
    TrimLowerCommute(OrEmpty(d'));
  }

  // ---------------------------------------------------------------------
  // Lookup order and write-back

  /** An absent or blank village is answered without consulting any tier and changes nothing. */
  lemma BlankVillageSkipsEverything(c: Caches, village: Option<string>, district: Option<string>,
                                    health: RedisHealth, lookup: string -> PostalReply)
    requires IsBlank(village)
    ensures Resolve(c, village, district, health, lookup) == Resolution(None, Skipped, c)
  {
  }

  /**
   * Redis is consulted first, the local cache second, the lookup service last;
   * a hit in an earlier tier is returned with both caches unchanged.
   */
  lemma {:induction false} TierOrder(c: Caches, village: string, district: Option<string>,
                                     health: RedisHealth, lookup: string -> PostalReply)
    requires Trim(village) != ""
    ensures var key := CacheKey(village, district);
            var r := Resolve(c, Some(village), district, health, lookup);
            && (RedisHit(c, key, health) ==>
                  r == Resolution(Some(c.redis[RedisKey(key)]), FromRedis, c))
            && (!RedisHit(c, key, health) && key in c.local ==>
                  r == Resolution(Some(c.local[key]), FromLocal, c))
            && (r.tier == FromLookup <==> !RedisHit(c, key, health) && key !in c.local)
  {
  }

  /** A failed Redis read behaves exactly as a Redis miss: same PIN, same tier, same local cache. */
  lemma {:induction false} RedisFailureIsMiss(c: Caches, village: Option<string>, district: Option<string>,
                                              setOk: bool, lookup: string -> PostalReply)
    requires village.Some?
    ensures var key := CacheKey(village.value, district);
            var failed := Resolve(c, village, district, RedisHealth(false, setOk), lookup);
            var missed := Resolve(c.(redis := c.redis - {RedisKey(key)}), village, district, RedisHealth(true, setOk), lookup);
            failed.pin == missed.pin && failed.tier == missed.tier && failed.caches.local == missed.caches.local
  {
    if !IsBlank(village) {
      var key := CacheKey(village.value, district);
      var c' := c.(redis := c.redis - {RedisKey(key)});
      assert RedisGet(c', key, true) == None;
      assert RedisGet(c, key, false) == None;
      assert c'.local == c.local;
    }
  }

  /**
   * No negative caching: the caches change only when the lookup service yields
   * a six-digit PIN, and then the local cache maps the key to that PIN (and
   * Redis too, when its write succeeds).
   */
  lemma {:induction false} WriteBackOnlyValid(c: Caches, village: Option<string>, district: Option<string>,
                                              health: RedisHealth, lookup: string -> PostalReply)
    ensures var r := Resolve(c, village, district, health, lookup);
            && (r.caches != c ==> r.tier == FromLookup && r.pin.Some?)
            && (r.tier == FromLookup && r.pin.Some? ==>
                  && IsSixDigits(r.pin.value)
                  && r.caches.local == c.local[CacheKey(village.value, district) := r.pin.value]
                  && (health.setOk ==> r.caches.redis == c.redis[RedisKey(CacheKey(village.value, district)) := r.pin.value])
                  && (!health.setOk ==> r.caches.redis == c.redis))
            && (r.tier == FromLookup && r.pin.None? ==> r.caches == c)
  {
    if !IsBlank(village) {
      var key := CacheKey(village.value, district);
      if !RedisHit(c, key, health) && key !in c.local {
        var pin := PinFromReply(lookup(Trim(village.value)), district);
        if pin.Some? {
          var c1 := c.(local := c.local[key := pin.value]);
          assert Resolve(c, village, district, health, lookup) == Resolution(pin, FromLookup, RedisSet(c1, key, pin.value, health.setOk));
          assert c.local != c1.local by { assert key in c1.local; }
        }
      }
    }
  }

  /** A lookup that fails, reports another status, or lists no office leaves both caches as they were. */
  lemma {:induction false} FailedLookupChangesNothing(c: Caches, village: string, district: Option<string>,
                                                      health: RedisHealth, lookup: string -> PostalReply)
    requires Trim(village) != ""
    requires !Succeeded(lookup(Trim(village)))
    ensures var r := Resolve(c, Some(village), district, health, lookup);
            r.caches == c && (r.tier == FromLookup ==> r.pin.None?)
  {
  }

  /**
   * Resolving the same place twice consults the lookup service at most once:
   * after a successful lookup the second call is served from a cache.
   */
  lemma {:induction false} SecondResolutionIsCached(c: Caches, village: string, district: Option<string>,
                                                    h1: RedisHealth, h2: RedisHealth,
                                                    lookup: string -> PostalReply, lookup2: string -> PostalReply)
    requires Trim(village) != ""
    requires Resolve(c, Some(village), district, h1, lookup).tier == FromLookup
    requires Resolve(c, Some(village), district, h1, lookup).pin.Some?
    ensures var first := Resolve(c, Some(village), district, h1, lookup);
            var second := Resolve(first.caches, Some(village), district, h2, lookup2);
            && second.tier in {FromRedis, FromLocal}
            && second.pin.Some?
            && second.caches == first.caches
            && (!RedisHit(first.caches, CacheKey(village, district), h2) ==> second.pin == first.pin)
  {
    var first := Resolve(c, Some(village), district, h1, lookup);
    WriteBackOnlyValid(c, Some(village), district, h1, lookup);
    assert CacheKey(village, district) in first.caches.local;
  }

  /** Only six-digit PINs ever enter the local cache. */
  ghost predicate LocalHoldsValidPins(c: Caches) {
    forall k :: k in c.local ==> IsSixDigits(c.local[k])
  }

  lemma {:induction false} ResolveKeepsLocalValid(c: Caches, village: Option<string>, district: Option<string>,
                                                  health: RedisHealth, lookup: string -> PostalReply)
    requires LocalHoldsValidPins(c)
    ensures LocalHoldsValidPins(Resolve(c, village, district, health, lookup).caches)
  {
    if !IsBlank(village) {
      var key := CacheKey(village.value, district);
      if !RedisHit(c, key, health) && key !in c.local {
        var pin := PinFromReply(lookup(Trim(village.value)), district);
        if pin.Some? {
          var c1 := c.(local := c.local[key := pin.value]);
          assert Resolve(c, village, district, health, lookup).caches == RedisSet(c1, key, pin.value, health.setOk);
        }
      }
    }
  }

  /** The module-level local cache and the Redis store, which `getPinCode` reads and updates. */
  class PinCaches {
    var local: map<string, string>
    var redis: map<string, string>

    function State(): Caches
      reads this
    {
      Caches(local, redis)
    }

    constructor (init: Caches)
      ensures State() == init
    {
      local := init.local;
      redis := init.redis;
    }

    /** `getCachedPin`: reads Redis under `pin:<key>`; a failed read is a miss. */
    method GetCachedPin(key: string, ok: bool) returns (v: Option<string>)
      ensures v == RedisGet(State(), key, ok)
      ensures v.Some? ==> v.value == redis[RedisPrefix + key]
    {
      if !ok {
        return None;
      }
      var k := RedisPrefix + key;
      if k in redis {
        v := Some(redis[k]);
      } else {
        v := None;
      }
    }

    /** `setCachedPin`: writes Redis under `pin:<key>`; a failed write is ignored. */
    method SetCachedPin(key: string, pin: string, ok: bool)
      modifies this`redis
      ensures State() == RedisSet(old(State()), key, pin, ok)
    {
      if ok {
        redis := redis[RedisPrefix + key := pin];
      }
    }

    /** `getPinCode`; `tier` records which tier answered. */
    method GetPinCode(village: Option<string>, district: Option<string>,
                      health: RedisHealth, lookup: string -> PostalReply)
      returns (pin: Option<string>, ghost tier: Tier)
      modifies this
      ensures Resolution(pin, tier, State()) == Resolve(old(State()), village, district, health, lookup)
    {
      if IsBlank(village) {
        return None, Skipped;
      }
      var key := CacheKey(village.value, district);
      pin := GetCachedPin(key, health.getOk);
      if Truthy(pin) {
        return pin, FromRedis;
      }
      if key in local {
        return Some(local[key]), FromLocal;
      }
      var reply := lookup(Trim(village.value));
      pin := PinFromReply(reply, district);
      tier := FromLookup;
      if pin.Some? {
        local := local[key := pin.value];
        SetCachedPin(key, pin.value, health.setOk);
        return;
      }
      return None, FromLookup;
    }
  }
}
