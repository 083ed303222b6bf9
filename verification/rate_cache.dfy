/**
  The two-window rate cache of services/api/src/services/rate_service.rs: `GetRate` for one market, and the batch path
  `GetAllRates`, which filters, fans out, writes back and reads everything again.
 */
module RateCache {
  import opened Wrappers
  import opened Text
  import opened PaymentIntents

  // ---------------------------------------------------------------- data model

  datatype Key = Key(market: string, asset: string, currency: string)

  datatype Rate = Rate(
    market: string,
    base: string,
    quote: string,
    display: string,
    asset: string,
    value: real,
    provider: string,
    environment: string,
    isLive: bool,
    isStale: bool,
    updatedAt: Time,
    expiresAt: Option<Time>)

  datatype Entry = Entry(rate: Rate, cachedAt: Time)

  type Cache = map<Key, Entry>

  /** What the provider answers to one fetch; `None` is any error. */
  type Answer = Option<Rate>

  datatype Ttls = Ttls(freshTtl: nat, staleTtl: nat) {
    /** `ChronoDuration::from_std(..).unwrap_or(..)`: a duration chrono cannot hold falls back to the default. */
    static function Effective(ttl: nat, fallback: nat): nat {
      if ttl > MAX_CHRONO then fallback else ttl
    }

    function Fresh(): nat {
      Effective(freshTtl, 45 * NANOS)
    }

    function Stale(): nat {
      Effective(staleTtl, 600 * NANOS)
    }

    predicate Ordered() {
      0 < Fresh() <= Stale()
    }
  }

  const MAX_CHRONO: nat := 0x7fff_ffff_ffff_ffff * 1_000_000

  const ALL_MARKETS: seq<Key> := [
    Key("NG", "USDT", "NGN"), Key("KE", "USDT", "KES"), Key("GH", "USDT", "GHS"), Key("ZA", "USDT", "ZAR"),
    Key("UG", "USDT", "UGX"), Key("RW", "USDT", "RWF"), Key("TZ", "USDT", "TZS"), Key("US", "USDT", "USD")]

  /** The single path trims and upper-cases its arguments, the batch path only upper-cases them. */
  function TrimmedUpper(k: Key): Key {
    Key(Upper(Trim(k.market)), Upper(Trim(k.asset)), Upper(Trim(k.currency)))
  }

  function UpperKey(k: Key): Key {
    Key(Upper(k.market), Upper(k.asset), Upper(k.currency))
  }

  predicate Normalised(k: Key) {
    TrimmedUpper(k) == k && UpperKey(k) == k
  }

  // ---------------------------------------------------------------- single path

  function Lookup(cache: Cache, k: Key): Option<Entry> {
    if k in cache then Some(cache[k]) else None
  }

  predicate IsFreshHit(ttls: Ttls, cache: Cache, k: Key, now: Time) {
    k in cache && now - cache[k].cachedAt < ttls.Fresh()
  }

  function RateFor(ttls: Ttls, cache: Cache, k: Key, answer: Answer, now: Time): (Cache, Option<Rate>) {
    if IsFreshHit(ttls, cache, k, now) then (cache, Some(cache[k].rate.(isStale := false)))
    else
      match answer
      case Some(rate) => (cache[k := Entry(rate, now)], Some(rate))
      case None =>
        if k in cache && now - cache[k].cachedAt < ttls.Stale() then (cache, Some(cache[k].rate.(isStale := true)))
        else (cache, None)
  }

  // ---------------------------------------------------------------- batch path

  function UpperKeys(markets: seq<Key>): (r: seq<Key>)
    ensures |r| == |markets|
  {
    seq(|markets|, i requires 0 <= i < |markets| => UpperKey(markets[i]))
  }

  /** The markets that need a fetch, as listed and as cache keys. */
  function ToFetch(ttls: Ttls, cache: Cache, markets: seq<Key>, keys: seq<Key>, now: Time): seq<(Key, Key)>
    requires |markets| == |keys|
  {
    if markets == [] then []
    else
      var n := |markets| - 1;
      var before := ToFetch(ttls, cache, markets[..n], keys[..n], now);
      if IsFreshHit(ttls, cache, keys[n], now) then before else before + [(markets[n], keys[n])]
  }

  lemma ToFetchNext(ttls: Ttls, cache: Cache, markets: seq<Key>, keys: seq<Key>, now: Time, i: nat)
    requires i < |markets| == |keys|
    ensures ToFetch(ttls, cache, markets[..i + 1], keys[..i + 1], now) ==
            var before := ToFetch(ttls, cache, markets[..i], keys[..i], now);
            if IsFreshHit(ttls, cache, keys[i], now) then before else before + [(markets[i], keys[i])]
  {
    assert markets[..i + 1][..i] == markets[..i] && keys[..i + 1][..i] == keys[..i];
  }

  function WrittenBack(cache: Cache, fetched: seq<(Key, Key)>, answer: Key -> Answer, now: Time): Cache {
    if fetched == [] then cache
    else
      var before := WrittenBack(cache, fetched[..|fetched| - 1], answer, now);
      var (market, key) := fetched[|fetched| - 1];
      match answer(market)
      case Some(rate) => before[key := Entry(rate, now)]
      case None => before
  }

  lemma WrittenBackNext(cache: Cache, fetched: seq<(Key, Key)>, answer: Key -> Answer, now: Time, i: nat)
    requires i < |fetched|
    ensures WrittenBack(cache, fetched[..i + 1], answer, now) ==
            var before := WrittenBack(cache, fetched[..i], answer, now);
            var (market, key) := fetched[i];
            if answer(market).Some? then before[key := Entry(answer(market).value, now)] else before
  {
    var longer := fetched[..i + 1];
    assert longer[..|longer| - 1] == fetched[..i] && longer[|longer| - 1] == fetched[i];
  }

  /** The final read of one slot: whatever is in the cache, flagged by its age. */
  function ReadSlot(ttls: Ttls, cache: Cache, k: Key, now: Time): Option<Rate> {
    if k !in cache then None
    else
      var age := now - cache[k].cachedAt;
      if age < ttls.Stale() then Some(cache[k].rate.(isStale := age >= ttls.Fresh())) else None
  }

  function ReadAll(ttls: Ttls, cache: Cache, keys: seq<Key>, now: Time): (r: seq<Option<Rate>>)
    ensures |r| == |keys|
  {
    seq(|keys|, i requires 0 <= i < |keys| => ReadSlot(ttls, cache, keys[i], now))
  }

  function BatchRates(ttls: Ttls, cache: Cache, markets: seq<Key>, keys: seq<Key>, answer: Key -> Answer, now: Time)
    : (Cache, seq<Option<Rate>>)
    requires |markets| == |keys|
  {
    var after := WrittenBack(cache, ToFetch(ttls, cache, markets, keys, now), answer, now);
    (after, ReadAll(ttls, after, keys, now))
  }

  function AllRates(ttls: Ttls, cache: Cache, markets: seq<Key>, answer: Key -> Answer, now: Time)
    : (Cache, seq<Option<Rate>>)
  {
    BatchRates(ttls, cache, markets, UpperKeys(markets), answer, now)
  }

  class HanbovaRateService {
    var cache: Cache
    const ttls: Ttls

    /** The windows of the running service: 45 seconds and ten minutes. */
    constructor Default()
      ensures cache == map[] && ttls.Fresh() == 45_000_000_000 && ttls.Stale() == 600_000_000_000
    {
      cache := map[];
      ttls := Ttls(45 * NANOS, 600 * NANOS);
    }

    constructor (freshTtl: nat, staleTtl: nat)
      ensures cache == map[] && ttls == Ttls(freshTtl, staleTtl)
    {
      cache := map[];
      ttls := Ttls(freshTtl, staleTtl);
    }

    /** `answer` is what the provider returns if it is asked. */
    method GetRate(raw: Key, answer: Key -> Answer, now: Time) returns (r: Option<Rate>)
      modifies this
      ensures cache == RateFor(ttls, old(cache), TrimmedUpper(raw), answer(TrimmedUpper(raw)), now).0
      ensures r == RateFor(ttls, old(cache), TrimmedUpper(raw), answer(TrimmedUpper(raw)), now).1
    {
      var key := TrimmedUpper(raw);
      if key in cache {
        var entry := cache[key];
        if now - entry.cachedAt < ttls.Fresh() {
          return Some(entry.rate.(isStale := false));
        }
      }
      match answer(key) {
        case Some(rate) =>
          cache := cache[key := Entry(rate, now)];
          r := Some(rate);
        case None =>
          if key in cache {
            var entry := cache[key];
            if now - entry.cachedAt < ttls.Stale() {
              return Some(entry.rate.(isStale := true));
            }
          }
          r := None;
      }
    }

    method GetAllRates(markets: seq<Key>, answer: Key -> Answer, now: Time) returns (rates: seq<Option<Rate>>)
      modifies this
      ensures cache == AllRates(ttls, old(cache), markets, answer, now).0
      ensures rates == AllRates(ttls, old(cache), markets, answer, now).1
    {
      ghost var keys := UpperKeys(markets);
      var toFetch: seq<(Key, Key)> := [];
      for i := 0 to |markets|
        invariant cache == old(cache)
        invariant toFetch == ToFetch(ttls, cache, markets[..i], keys[..i], now)
      {
        ToFetchNext(ttls, cache, markets, keys, now, i);
        var key := UpperKey(markets[i]);
        if key !in cache || now - cache[key].cachedAt >= ttls.Fresh() {
          toFetch := toFetch + [(markets[i], key)];
        }
      }
      assert markets[..|markets|] == markets && keys[..|markets|] == keys;

      var results: seq<(Key, Answer)> := [];
      for i := 0 to |toFetch|
        invariant |results| == i
        invariant forall j | 0 <= j < i :: results[j] == (toFetch[j].1, answer(toFetch[j].0))
      {
        results := results + [(toFetch[i].1, answer(toFetch[i].0))];
      }

      for i := 0 to |results|
        invariant cache == WrittenBack(old(cache), toFetch[..i], answer, now)
      {
        WrittenBackNext(old(cache), toFetch, answer, now, i);
        if results[i].1.Some? {
          cache := cache[results[i].0 := Entry(results[i].1.value, now)];
        }
      }
      assert toFetch[..|toFetch|] == toFetch;

      rates := ReadSlots(markets, now);
    }

    method ReadSlots(markets: seq<Key>, now: Time) returns (rates: seq<Option<Rate>>)
      ensures rates == ReadAll(ttls, cache, UpperKeys(markets), now)
    {
      rates := [];
      for i := 0 to |markets|
        invariant rates == ReadAll(ttls, cache, UpperKeys(markets), now)[..i]
      {
        var key := UpperKey(markets[i]);
        var slot := None;
        if key in cache {
          var age := now - cache[key].cachedAt;
          if age < ttls.Stale() {
            slot := Some(cache[key].rate.(isStale := age >= ttls.Fresh()));
          }
        }
        rates := rates + [slot];
      }
    }
  }

  // ---------------------------------------------------------------- the batch is the single path, market by market

  /** The single path for each cache key in turn, at one instant. */
  function EachKey(ttls: Ttls, cache: Cache, keys: seq<Key>, answer: Key -> Answer, now: Time)
    : (r: (Cache, seq<Option<Rate>>))
    ensures |r.1| == |keys|
  {
    if keys == [] then (cache, [])
    else
      var (before, rates) := EachKey(ttls, cache, keys[..|keys| - 1], answer, now);
      var key := keys[|keys| - 1];
      var (after, rate) := RateFor(ttls, before, key, answer(key), now);
      (after, rates + [rate])
  }

  function TrimmedKeys(markets: seq<Key>): seq<Key> {
    seq(|markets|, i requires 0 <= i < |markets| => TrimmedUpper(markets[i]))
  }

  /** `get_rate` called on each market in turn. */
  function EachRate(ttls: Ttls, cache: Cache, markets: seq<Key>, answer: Key -> Answer, now: Time)
    : (Cache, seq<Option<Rate>>)
  {
    EachKey(ttls, cache, TrimmedKeys(markets), answer, now)
  }

  ghost predicate Distinct(keys: seq<Key>) {
    forall i, j | 0 <= i < j < |keys| :: keys[i] != keys[j]
  }

  ghost predicate AllNormalised(markets: seq<Key>) {
    forall i | 0 <= i < |markets| :: Normalised(markets[i])
  }

  lemma NormalisedKeys(markets: seq<Key>)
    requires AllNormalised(markets)
    ensures UpperKeys(markets) == markets && TrimmedKeys(markets) == markets
  {
  }

  // ---------------------------------------------------------------- the two windows, in nanoseconds

  /** The configured windows count; one that chrono cannot hold is 45 seconds, or ten minutes. */
  lemma WindowsExactly(ttls: Ttls)
    ensures var limit := 9_223_372_036_854_775_807_000_000;
            && (ttls.freshTtl <= limit ==> ttls.Fresh() == ttls.freshTtl)
            && (ttls.staleTtl <= limit ==> ttls.Stale() == ttls.staleTtl)
            && (ttls.freshTtl > limit ==> ttls.Fresh() == 45_000_000_000)
            && (ttls.staleTtl > limit ==> ttls.Stale() == 600_000_000_000)
  {
  }

  /**
    What a single call comes to: an entry younger than the fresh window is served unflagged and nothing is asked or
    stored; otherwise an answer is stored under the current time and served as it is; without one, an entry younger
    than the stale window is served flagged, and there is no rate else.
   */
  lemma RateForExactly(ttls: Ttls, cache: Cache, k: Key, answer: Answer, now: Time)
    requires ttls.freshTtl <= 9_223_372_036_854_775_807_000_000 && ttls.staleTtl <= 9_223_372_036_854_775_807_000_000
    ensures var (after, r) := RateFor(ttls, cache, k, answer, now);
            if k in cache && now - cache[k].cachedAt < ttls.freshTtl then
              after == cache && r == Some(cache[k].rate.(isStale := false))
            else if answer.Some? then
              after == cache[k := Entry(answer.value, now)] && r == answer
            else
              && after == cache
              && r == if k in cache && now - cache[k].cachedAt < ttls.staleTtl
                      then Some(cache[k].rate.(isStale := true)) else None
  {
    WindowsExactly(ttls);
  }

  /**
    What a batch comes to for one market: the same entry, answer and absence, but every rate flagged by its own age,
    and an answer served only if the stale window is not empty.
   */
  lemma BatchSlotExactly(ttls: Ttls, cache: Cache, markets: seq<Key>, answer: Key -> Answer, now: Time, i: nat)
    requires Distinct(markets) && AllNormalised(markets) && i < |markets|
    requires ttls.freshTtl <= 9_223_372_036_854_775_807_000_000 && ttls.staleTtl <= 9_223_372_036_854_775_807_000_000
    ensures var (after, rates) := AllRates(ttls, cache, markets, answer, now);
            var k := markets[i];
            && |rates| == |markets|
            && if k in cache && now - cache[k].cachedAt < ttls.freshTtl then
                 && k in after && after[k] == cache[k]
                 && rates[i] == if now - cache[k].cachedAt < ttls.staleTtl
                                then Some(cache[k].rate.(isStale := false)) else None
               else if answer(k).Some? then
                 && k in after && after[k] == Entry(answer(k).value, now)
                 && rates[i] == if ttls.staleTtl > 0
                                then Some(answer(k).value.(isStale := ttls.freshTtl == 0)) else None
               else
                 && (k in after <==> k in cache) && (k in cache ==> after[k] == cache[k])
                 && rates[i] == if k in cache && now - cache[k].cachedAt < ttls.staleTtl
                                then Some(cache[k].rate.(isStale := true)) else None
  {
    WindowsExactly(ttls);
    NormalisedKeys(markets);
    BatchCache(ttls, cache, markets, answer, now, markets[i]);
  }

  /** No other entry of the cache is touched by a batch. */
  lemma BatchLeavesOthers(ttls: Ttls, cache: Cache, markets: seq<Key>, answer: Key -> Answer, now: Time, k: Key)
    requires AllNormalised(markets) && k !in markets
    ensures var after := AllRates(ttls, cache, markets, answer, now).0;
            (k in after <==> k in cache) && (k in cache ==> after[k] == cache[k])
  {
    NormalisedKeys(markets);
    BatchCache(ttls, cache, markets, answer, now, k);
  }

  /** The provider is asked for a market as listed, and its answer is kept under the upper-case key. */
  lemma BatchOfOne(ttls: Ttls, market: Key, answer: Key -> Answer, now: Time)
    ensures AllRates(ttls, map[], [market], answer, now).0 ==
            if answer(market).Some? then map[UpperKey(market) := Entry(answer(market).value, now)] else map[]
  {
    var (markets, keys) := ([market], UpperKeys([market]));
    assert markets[..0] == [] && keys[..0] == [];
    assert ToFetch(ttls, map[], markets[..0], keys[..0], now) == [];
    var fetched := ToFetch(ttls, map[], markets, keys, now);
    assert fetched == [(market, UpperKey(market))];
    assert fetched[..0] == [];
    assert WrittenBack(map[], fetched[..0], answer, now) == map[];
  }

  /** White space around the arguments of a single call and their case make no difference to the key. */
  lemma KeyIgnoresBlanksAndCase(pre: string, market: string, post: string)
    requires IsBlank(pre) && IsBlank(post) && HasEnds(market)
    ensures TrimmedUpper(Key(pre + market + post, "", "")).market == Upper(market)
    ensures TrimmedUpper(Key("", pre + market + post, "")).asset == Upper(market)
    ensures TrimmedUpper(Key("", "", pre + market + post)).currency == Upper(market)
    ensures UpperKey(Key(market, "", "")).market == UpperKey(Key("", market, "")).asset ==
            UpperKey(Key("", "", market)).currency == Upper(market)
  {
    TrimExactly(pre, market, post);
  }

  predicate IsUpperWord(s: string) {
    s != [] && forall i | 0 <= i < |s| :: 'A' <= s[i] <= 'Z'
  }

  lemma UpperWordsAreNormalised(k: Key)
    requires IsUpperWord(k.market) && IsUpperWord(k.asset) && IsUpperWord(k.currency)
    ensures Normalised(k)
  {
    assert Upper(k.market) == k.market && Upper(k.asset) == k.asset && Upper(k.currency) == k.currency;
    assert Trim(k.market) == k.market && Trim(k.asset) == k.asset && Trim(k.currency) == k.currency;
  }

  lemma KnownMarketsAreNormalised()
    ensures AllNormalised(ALL_MARKETS)
  {
    forall i | 0 <= i < |ALL_MARKETS|
      ensures Normalised(ALL_MARKETS[i])
    {
      var k := ALL_MARKETS[i];
      assert k.asset == "USDT";
      assert |k.market| == 2 && 'A' <= k.market[0] <= 'Z' && 'A' <= k.market[1] <= 'Z';
      assert |k.currency| == 3 && 'A' <= k.currency[0] <= 'Z' && 'A' <= k.currency[1] <= 'Z'
             && 'A' <= k.currency[2] <= 'Z';
      UpperWordsAreNormalised(k);
    }
  }

  lemma KnownMarketsAreDistinct()
    ensures Distinct(ALL_MARKETS)
  {
    forall i, j | 0 <= i < j < |ALL_MARKETS|
      ensures ALL_MARKETS[i] != ALL_MARKETS[j]
    {
      var a, b := ALL_MARKETS[i].market, ALL_MARKETS[j].market;
      assert a[0] != b[0] || a[1] != b[1];
    }
  }

  /** The batch over the eight markets the service is run with is the single path mapped over them. */
  lemma KnownMarketsBatch(ttls: Ttls, cache: Cache, answer: Key -> Answer, now: Time)
    requires ttls.Ordered()
    requires forall k | k in ALL_MARKETS && answer(k).Some? :: !answer(k).value.isStale
    ensures AllRates(ttls, cache, ALL_MARKETS, answer, now) == EachRate(ttls, cache, ALL_MARKETS, answer, now)
  {
    KnownMarketsAreNormalised();
    KnownMarketsAreDistinct();
    BatchIsMappedSingle(ttls, cache, ALL_MARKETS, answer, now);
  }

  /** What either path leaves under key `k` when it serves the market `k`. */
  function EntryAfter(ttls: Ttls, cache: Cache, k: Key, answer: Answer, now: Time): Option<Entry> {
    if !IsFreshHit(ttls, cache, k, now) && answer.Some? then Some(Entry(answer.value, now)) else Lookup(cache, k)
  }

  lemma {:induction false} EachKeyCache(
    ttls: Ttls, cache: Cache, keys: seq<Key>, answer: Key -> Answer, now: Time, k: Key)
    requires Distinct(keys)
    ensures Lookup(EachKey(ttls, cache, keys, answer, now).0, k) ==
            if k in keys then EntryAfter(ttls, cache, k, answer(k), now) else Lookup(cache, k)
  {
    if keys != [] {
      var n := |keys| - 1;
      EachKeyCache(ttls, cache, keys[..n], answer, now, k);
      assert keys[n] !in keys[..n];
      assert k in keys <==> k == keys[n] || k in keys[..n];
    }
  }

  lemma {:induction false} EachKeySlots(
    ttls: Ttls, cache: Cache, keys: seq<Key>, answer: Key -> Answer, now: Time, i: nat)
    requires Distinct(keys) && i < |keys|
    ensures EachKey(ttls, cache, keys, answer, now).1[i] == RateFor(ttls, cache, keys[i], answer(keys[i]), now).1
  {
    var n := |keys| - 1;
    if i < n {
      EachKeySlots(ttls, cache, keys[..n], answer, now, i);
    } else {
      EachKeyCache(ttls, cache, keys[..n], answer, now, keys[n]);
      assert keys[n] !in keys[..n];
    }
  }

  /** The markets to fetch are those without a fresh entry, each under its own key. */
  lemma {:induction false} ToFetchMembers(ttls: Ttls, cache: Cache, keys: seq<Key>, now: Time, k: Key, other: Key)
    ensures (other, k) in ToFetch(ttls, cache, keys, keys, now) <==>
            other == k && k in keys && !IsFreshHit(ttls, cache, k, now)
  {
    if keys != [] {
      var n := |keys| - 1;
      ToFetchMembers(ttls, cache, keys[..n], now, k, other);
      assert k in keys <==> k == keys[n] || k in keys[..n];
    }
  }

  lemma {:induction false} WrittenBackCache(
    cache: Cache, fetched: seq<(Key, Key)>, answer: Key -> Answer, now: Time, k: Key)
    requires forall p | p in fetched :: p.0 == p.1
    ensures Lookup(WrittenBack(cache, fetched, answer, now), k) ==
            if (k, k) in fetched && answer(k).Some? then Some(Entry(answer(k).value, now)) else Lookup(cache, k)
  {
    if fetched != [] {
      var n := |fetched| - 1;
      WrittenBackCache(cache, fetched[..n], answer, now, k);
      assert (k, k) in fetched <==> (k, k) == fetched[n] || (k, k) in fetched[..n];
      assert fetched[n] in fetched;
    }
  }

  lemma BatchCache(ttls: Ttls, cache: Cache, keys: seq<Key>, answer: Key -> Answer, now: Time, k: Key)
    ensures Lookup(BatchRates(ttls, cache, keys, keys, answer, now).0, k) ==
            if k in keys then EntryAfter(ttls, cache, k, answer(k), now) else Lookup(cache, k)
  {
    var fetched := ToFetch(ttls, cache, keys, keys, now);
    forall p | p in fetched
      ensures p.0 == p.1
    {
      ToFetchMembers(ttls, cache, keys, now, p.1, p.0);
    }
    ToFetchMembers(ttls, cache, keys, now, k, k);
    WrittenBackCache(cache, fetched, answer, now, k);
  }

  lemma SameLookups(a: Cache, b: Cache)
    requires forall k: Key :: Lookup(a, k) == Lookup(b, k)
    ensures a == b
  {
    forall k: Key
      ensures k in a <==> k in b
      ensures k in a ==> a[k] == b[k]
    {
      assert Lookup(a, k) == Lookup(b, k);
    }
  }

  /** Both paths always leave the same cache. */
  lemma SameCache(ttls: Ttls, cache: Cache, markets: seq<Key>, answer: Key -> Answer, now: Time)
    requires Distinct(markets) && AllNormalised(markets)
    ensures AllRates(ttls, cache, markets, answer, now).0 == EachRate(ttls, cache, markets, answer, now).0
  {
    NormalisedKeys(markets);
    var a := BatchRates(ttls, cache, markets, markets, answer, now).0;
    var b := EachKey(ttls, cache, markets, answer, now).0;
    forall k: Key
      ensures Lookup(a, k) == Lookup(b, k)
    {
      BatchCache(ttls, cache, markets, answer, now, k);
      EachKeyCache(ttls, cache, markets, answer, now, k);
    }
    SameLookups(a, b);
  }

  /**
    When the two paths give one market the same slot: decided by the windows, the old entry and the provider's flag.
   */
  predicate SlotsAgree(ttls: Ttls, cache: Cache, k: Key, answer: Answer, now: Time) {
    if IsFreshHit(ttls, cache, k, now) then now - cache[k].cachedAt < ttls.Stale()
    else answer.Some? ==> 0 < ttls.Stale() && (answer.value.isStale <==> ttls.Fresh() == 0)
  }

  lemma SlotOfEntry(ttls: Ttls, cache: Cache, after: Cache, k: Key, answer: Answer, now: Time)
    requires Lookup(after, k) == EntryAfter(ttls, cache, k, answer, now)
    ensures ReadSlot(ttls, after, k, now) == RateFor(ttls, cache, k, answer, now).1 <==>
            SlotsAgree(ttls, cache, k, answer, now)
  {
  }

  /** For every configuration: the batch answers a market as the single path does, exactly under `SlotsAgree`. */
  lemma BatchSlotsAgreeExactly(ttls: Ttls, cache: Cache, markets: seq<Key>, answer: Key -> Answer, now: Time, i: nat)
    requires Distinct(markets) && AllNormalised(markets) && i < |markets|
    ensures i < |AllRates(ttls, cache, markets, answer, now).1| == |EachRate(ttls, cache, markets, answer, now).1|
    ensures AllRates(ttls, cache, markets, answer, now).1[i] == EachRate(ttls, cache, markets, answer, now).1[i] <==>
            SlotsAgree(ttls, cache, markets[i], answer(markets[i]), now)
  {
    NormalisedKeys(markets);
    EachKeySlots(ttls, cache, markets, answer, now, i);
    BatchCache(ttls, cache, markets, answer, now, markets[i]);
    SlotOfEntry(ttls, cache, BatchRates(ttls, cache, markets, markets, answer, now).0, markets[i],
                answer(markets[i]), now);
  }

  /**
    With a positive fresh window inside the stale window and a provider that never flags its answers stale, one batch
    call is the single path mapped over the markets: same rates, flags and absences in the same positions, same cache.
   */
  lemma BatchIsMappedSingle(ttls: Ttls, cache: Cache, markets: seq<Key>, answer: Key -> Answer, now: Time)
    requires Distinct(markets) && AllNormalised(markets) && ttls.Ordered()
    requires forall k | k in markets && answer(k).Some? :: !answer(k).value.isStale
    ensures AllRates(ttls, cache, markets, answer, now) == EachRate(ttls, cache, markets, answer, now)
  {
    SameCache(ttls, cache, markets, answer, now);
    var a, b := AllRates(ttls, cache, markets, answer, now).1, EachRate(ttls, cache, markets, answer, now).1;
    assert |a| == |b| == |markets|;
    forall i | 0 <= i < |markets|
      ensures a[i] == b[i]
    {
      BatchSlotsAgreeExactly(ttls, cache, markets, answer, now, i);
    }
    assert a == b;
    assert AllRates(ttls, cache, markets, answer, now) == (EachRate(ttls, cache, markets, answer, now).0, b);
  }
}
