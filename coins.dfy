/**
 * src/routes/coins.js: GET /api/coins. The KRW markets of Upbit are listed,
 * their tickers fetched 50 at a time and merged in, the merged list cached
 * for 15 seconds, and the answer sorted by the requested order and cut to
 * the requested limit. Prices and rates are exact reals.
 */
module CoinsList {
  import opened Wrappers
  import opened JsString
  import opened Sorting

  /** Cache lifetime, `15 * 1000` milliseconds. */
  const TtlMs := 15000

  /** Tickers requested per call. */
  const ChunkSize := 50

  /** An entry of `/market/all`; `market` may be missing. */
  datatype Market = Market(market: Option<string>, koreanName: string, englishName: string)

  /** A KRW market with its symbol, as mapped from a `Market`. */
  datatype Listing = Listing(market: string, nameKo: string, nameEn: string, symbol: string)

  /** An entry of `/ticker`; a number field the response leaves out is `None`. */
  datatype Ticker = Ticker(market: string, tradePrice: Option<real>, signedChangePrice: Option<real>,
                           signedChangeRate: Option<real>, accTradeVolume24h: Option<real>, accTradePrice24h: Option<real>)

  /** An item of the answer: the listing and its ticker figures, `None` standing for `null`. */
  datatype Coin = Coin(market: string, nameKo: string, nameEn: string, symbol: string, price: Option<real>,
                       change: Option<real>, changeRate: Option<real>, volume24h: Option<real>, value24h: Option<real>)

  predicate StartsWith(s: string, prefix: string) {
    |prefix| <= |s| && s[..|prefix|] == prefix
  }

  /** `m.market?.startsWith('KRW-')`. */
  predicate IsKrw(m: Market) {
    m.market.Some? && StartsWith(m.market.value, "KRW-")
  }

  /** The longest prefix of `s` without a hyphen. */
  function UntilHyphen(s: string): (r: string)
    ensures |r| <= |s| && r == s[..|r|]
    ensures forall i :: 0 <= i < |r| ==> r[i] != '-'
    ensures |r| < |s| ==> s[|r|] == '-'
  {
    if s == [] || s[0] == '-' then [] else [s[0]] + UntilHyphen(s[1..])
  }

  /** `market.split('-')[1]` for a market that starts with "KRW-": the field after the first hyphen. */
  function Symbol(market: string): (r: string)
    requires StartsWith(market, "KRW-")
    ensures 4 + |r| <= |market| && market[4..4 + |r|] == r
    ensures forall i :: 0 <= i < |r| ==> r[i] != '-'
    ensures 4 + |r| < |market| ==> market[4 + |r|] == '-'
  {
    UntilHyphen(market[4..])
  }

  function ToListing(m: Market): Listing
    requires IsKrw(m)
  {
    Listing(m.market.value, m.koreanName, m.englishName, Symbol(m.market.value))
  }

  /** `marketsAll.filter(m => m.market?.startsWith('KRW-')).map(...)`. */
  function KrwMarkets(all: seq<Market>): (r: seq<Listing>)
    ensures |r| <= |all|
    ensures forall i :: 0 <= i < |r| ==> StartsWith(r[i].market, "KRW-") && r[i].symbol == Symbol(r[i].market)
    ensures (forall i :: 0 <= i < |all| ==> IsKrw(all[i])) ==> |r| == |all|
    ensures (forall i :: 0 <= i < |all| ==> !IsKrw(all[i])) ==> r == []
    decreases |all|
  {
    if all == [] then []
    else if IsKrw(all[0]) then [ToListing(all[0])] + KrwMarkets(all[1..])
    else KrwMarkets(all[1..])
  }

  /** A single entry is kept, mapped to its listing, exactly when it is a KRW market. */
  lemma KrwMarketsSingle(m: Market)
    ensures KrwMarkets([m]) == if IsKrw(m) then [ToListing(m)] else []
  {
    assert [m][1..] == [];
  }

  /** Filtering distributes over concatenation, so kept entries keep their input order and multiplicity. */
  lemma {:induction false} KrwMarketsAppend(a: seq<Market>, b: seq<Market>)
    ensures KrwMarkets(a + b) == KrwMarkets(a) + KrwMarkets(b)
    decreases |a|
  {
    if a == [] {
      assert a + b == b;
    } else {
      assert (a + b)[0] == a[0] && (a + b)[1..] == a[1..] + b;
      KrwMarketsAppend(a[1..], b);
    }
  }

  /** No KRW market is lost: each one is listed, with its names. */
  lemma {:induction false} KrwMarketsComplete(all: seq<Market>, k: nat)
    requires k < |all| && IsKrw(all[k])
    ensures ToListing(all[k]) in KrwMarkets(all)
    decreases k
  {
    if k > 0 {
      KrwMarketsComplete(all[1..], k - 1);
    }
  }

  /** Every listed market comes from a KRW entry of the input. */
  lemma {:induction false} KrwMarketsSound(all: seq<Market>, l: Listing)
    requires l in KrwMarkets(all)
    ensures exists k :: 0 <= k < |all| && IsKrw(all[k]) && ToListing(all[k]) == l
    decreases |all|
  {
    if all != [] {
      if IsKrw(all[0]) && l == ToListing(all[0]) {
      } else {
        KrwMarketsSound(all[1..], l);
        var k :| 0 <= k < |all[1..]| && IsKrw(all[1..][k]) && ToListing(all[1..][k]) == l;
        assert all[k + 1] == all[1..][k];
      }
    }
  }

  /** `BTC` in `KRW-BTC`, and only the first field after the prefix. */
  lemma SymbolExamples()
    ensures Symbol("KRW-BTC") == "BTC"
    ensures Symbol("KRW-A-B") == "A"
  {
    assert "KRW-BTC"[..4] == "KRW-" && "KRW-BTC"[4..] == "BTC";
    assert "KRW-A-B"[..4] == "KRW-" && "KRW-A-B"[4..] == "A-B";
    assert UntilHyphen("BTC") == "BTC" by {
      assert "BTC"[1..] == "TC" && "TC"[1..] == "C" && "C"[1..] == "";
    }
    assert UntilHyphen("A-B") == "A" by {
      assert "A-B"[1..] == "-B";
    }
  }

  /** `xs.slice(i, i + size)` for `i = 0, size, 2·size, ...`. */
  function ChunksOf<T>(xs: seq<T>, size: nat): seq<seq<T>>
    requires size > 0
    decreases |xs|
  {
    if xs == [] then []
    else if |xs| <= size then [xs]
    else [xs[..size]] + ChunksOf(xs[size..], size)
  }

  function Flatten<T>(chunks: seq<seq<T>>): seq<T> {
    if chunks == [] then [] else chunks[0] + Flatten(chunks[1..])
  }

  /** The chunks from position `i` on: one chunk of at most `size` elements, then the chunks after it. */
  lemma ChunksOfFront<T>(xs: seq<T>, i: nat, size: nat)
    requires size > 0 && i < |xs|
    ensures var hi := if i + size < |xs| then i + size else |xs|;
      ChunksOf(xs[i..], size) == [xs[i..hi]] + ChunksOf(xs[hi..], size)
  {
    var rest := xs[i..];
    if i + size < |xs| {
      assert rest[..size] == xs[i..i + size];
      assert rest[size..] == xs[i + size..];
    } else {
      assert rest == xs[i..|xs|];
      assert xs[|xs|..] == [];
    }
  }

  /** The chunks put back together are the input, and each holds between 1 and `size` elements. */
  lemma {:induction false} ChunksOfPartition<T>(xs: seq<T>, size: nat)
    requires size > 0
    ensures Flatten(ChunksOf(xs, size)) == xs
    ensures forall k :: 0 <= k < |ChunksOf(xs, size)| ==> 0 < |ChunksOf(xs, size)[k]| <= size
    decreases |xs|
  {
    if |xs| > size {
      ChunksOfPartition(xs[size..], size);
      var c := ChunksOf(xs, size);
      assert c[1..] == ChunksOf(xs[size..], size);
      assert xs == xs[..size] + xs[size..];
    } else if xs != [] {
      assert Flatten([xs]) == xs + Flatten([]);
    }
  }

  /** `c.map(x => x.market)`: the markets a ticker request names. */
  function MarketCodes(c: seq<Listing>): (r: seq<string>)
    ensures |r| == |c| && forall i :: 0 <= i < |c| ==> r[i] == c[i].market
  {
    seq(|c|, i requires 0 <= i < |c| => c[i].market)
  }

  /**
   * The tickers of all chunks in order, or `None` when a request fails.
   * `fetch` stands for the `/ticker` call on a list of markets.
   */
  function FetchAll(chunks: seq<seq<Listing>>, fetch: seq<string> -> Option<seq<Ticker>>): Option<seq<Ticker>>
    decreases |chunks|
  {
    if chunks == [] then Some([])
    else
      match FetchAll(chunks[..|chunks| - 1], fetch)
      case None => None
      case Some(front) =>
        match fetch(MarketCodes(chunks[|chunks| - 1]))
        case None => None
        case Some(t) => Some(front + t)
  }

  /** `tickers.find(x => x.market === market)`: the position of the first ticker for that market. */
  function FindTicker(tickers: seq<Ticker>, market: string): (r: Option<nat>)
    ensures r.Some? ==> r.value < |tickers| && tickers[r.value].market == market
    ensures r.Some? ==> forall j :: 0 <= j < r.value ==> tickers[j].market != market
    ensures r.None? <==> forall j :: 0 <= j < |tickers| ==> tickers[j].market != market
    decreases |tickers|
  {
    if tickers == [] then None
    else if tickers[0].market == market then Some(0)
    else
      match FindTicker(tickers[1..], market)
      case None => None
      case Some(j) => Some(j + 1)
  }

  /** `Number(x.toFixed(2))` on an exact value: to two decimals, halves away from zero. */
  function RoundTo2(x: real): (r: real)
    ensures -0.005 <= r - x <= 0.005
    ensures (r * 100.0).Floor as real == r * 100.0
    ensures x >= 0.0 ==> r - x > -0.005
    ensures x < 0.0 ==> r - x < 0.005
  {
    var a := if x >= 0.0 then x else -x;
    var n := (a * 100.0 + 0.5).Floor;
    assert a * 100.0 - 0.5 < n as real <= a * 100.0 + 0.5;
    var m := if x >= 0.0 then n else -n;
    assert (m as real / 100.0) * 100.0 == m as real;
    m as real / 100.0
  }

  /** One entry of `krwMarkets.map(...)`: the listing, then the figures of its first ticker, or `null`s. */
  function MergeOne(info: Listing, tickers: seq<Ticker>): Coin {
    match FindTicker(tickers, info.market)
    case None => Coin(info.market, info.nameKo, info.nameEn, info.symbol, None, None, None, None, None)
    case Some(j) =>
      var t := tickers[j];
      var rate := if t.signedChangeRate.Some? then Some(RoundTo2(t.signedChangeRate.value * 100.0)) else None;
      Coin(info.market, info.nameKo, info.nameEn, info.symbol, t.tradePrice, t.signedChangePrice, rate,
           t.accTradeVolume24h, t.accTradePrice24h)
  }

  /** The merged list: one coin per listing, in the listing's order, with that listing's identity. */
  function Merge(listings: seq<Listing>, tickers: seq<Ticker>): (r: seq<Coin>)
    ensures |r| == |listings|
    ensures forall i :: 0 <= i < |r| ==>
      && r[i].market == listings[i].market && r[i].symbol == listings[i].symbol
      && r[i].nameKo == listings[i].nameKo && r[i].nameEn == listings[i].nameEn
    ensures forall i :: 0 <= i < |r| && FindTicker(tickers, listings[i].market).None? ==>
      r[i].price.None? && r[i].change.None? && r[i].changeRate.None? && r[i].volume24h.None? && r[i].value24h.None?
    ensures forall i :: 0 <= i < |r| && FindTicker(tickers, listings[i].market).Some? ==>
      var t := tickers[FindTicker(tickers, listings[i].market).value];
      && r[i].price == t.tradePrice && r[i].value24h == t.accTradePrice24h && r[i].volume24h == t.accTradeVolume24h
      && r[i].change == t.signedChangePrice
      && r[i].changeRate == (if t.signedChangeRate.Some? then Some(RoundTo2(t.signedChangeRate.value * 100.0)) else None)
  {
    seq(|listings|, i requires 0 <= i < |listings| => MergeOne(listings[i], tickers))
  }

  /** The `limit` query: `parseInt(String(limit || ''), 10)`, clamped to [1, 200] when it is a number. */
  function ParseLimit(q: Option<string>): (r: Option<nat>)
    ensures r.Some? <==> ParseInt(if Truthy(q) then q.value else "").Some?
    ensures r.Some? ==> 1 <= r.value <= 200
    ensures r.Some? && 1 <= ParseInt(q.value).value <= 200 ==> r.value == ParseInt(q.value).value
    ensures r.Some? && ParseInt(q.value).value < 1 ==> r.value == 1
    ensures r.Some? && ParseInt(q.value).value > 200 ==> r.value == 200
  {
    match ParseInt(if Truthy(q) then q.value else "")
    case None => None
    case Some(n) => Some(if n > 200 then 200 else if n < 1 then 1 else n)
  }

  /** Any decimal count is clamped into [1, 200]; an absent limit means no cut. */
  lemma ParseLimitDecimal(n: nat)
    ensures ParseLimit(Some(ToDecimal(n))) == Some(if n > 200 then 200 else if n < 1 then 1 else n)
  {
    var d := ToDecimal(n);
    DecimalRoundTrip(n);
    ParseIntDecimal("", n, "");
    assert "" + d + "" == d;
    assert ParseInt(d) == Some(n);
    assert Truthy(Some(d));
  }

  /** A negative limit such as "-5", or "-0", is raised to 1 by `Math.max(1, ...)`. */
  lemma ParseLimitNegative(d: string)
    requires IsDigits(d)
    ensures ParseLimit(Some("-" + d)) == Some(1)
  {
    assert ParseInt("-" + d) == Some(-(DecimalValue(d) as int)) by {
      ParseIntSignedDigits("", '-', d, "");
      assert "" + ['-'] + d + "" == "-" + d;
    }
    assert Truthy(Some("-" + d));
  }

  lemma ParseLimitAbsent()
    ensures ParseLimit(None) == None && ParseLimit(Some("")) == None
  {
    ParseIntNoDigit("");
  }

  /** The `type` query: `String(type || 'trending').toLowerCase()`. */
  function SortType(q: Option<string>): string {
    ToLower(if Truthy(q) then q.value else "trending")
  }

  /** `x ?? fallback`. */
  function OrElse(x: Option<real>, fallback: real): real {
    if x.Some? then x.value else fallback
  }

  /**
   * The comparator of `sortAndSlice` for `type`, as a key sorted ascending:
   * descending orders use the negated figure.
   */
  function RankKey(sortType: string): Coin -> real {
    if sortType == "gainers" then (c: Coin) => -OrElse(c.changeRate, -999.0)
    else if sortType == "losers" then (c: Coin) => OrElse(c.changeRate, 999.0)
    else if sortType == "volume" then (c: Coin) => -OrElse(c.volume24h, -1.0)
    else (c: Coin) => -OrElse(c.value24h, -1.0)
  }

  /** `limit ? arr.slice(0, limit) : arr`: how many items are kept. */
  function KeepCount(limit: Option<nat>, length: nat): nat {
    if limit.Some? && limit.value != 0 then limit.value else length
  }

  /** `gainers` is non-increasing in `changeRate`, a missing rate counting as -999. */
  lemma GainersOrder(items: seq<Coin>, list: seq<Coin>, n: nat)
    requires IsSortedPrefix(items, list, RankKey("gainers"), n)
    ensures forall i, j :: 0 <= i < j < |items| ==> OrElse(items[i].changeRate, -999.0) >= OrElse(items[j].changeRate, -999.0)
  {
    forall i, j | 0 <= i < j < |items|
      ensures OrElse(items[i].changeRate, -999.0) >= OrElse(items[j].changeRate, -999.0)
    {
      assert RankKey("gainers")(items[i]) <= RankKey("gainers")(items[j]);
    }
  }

  /** `losers` is non-decreasing in `changeRate`, a missing rate counting as 999. */
  lemma LosersOrder(items: seq<Coin>, list: seq<Coin>, n: nat)
    requires IsSortedPrefix(items, list, RankKey("losers"), n)
    ensures forall i, j :: 0 <= i < j < |items| ==> OrElse(items[i].changeRate, 999.0) <= OrElse(items[j].changeRate, 999.0)
  {
    forall i, j | 0 <= i < j < |items|
      ensures OrElse(items[i].changeRate, 999.0) <= OrElse(items[j].changeRate, 999.0)
    {
      assert RankKey("losers")(items[i]) <= RankKey("losers")(items[j]);
    }
  }

  /** `volume` is descending by `volume24h`, a missing volume counting as -1. */
  lemma VolumeOrder(items: seq<Coin>, list: seq<Coin>, n: nat)
    requires IsSortedPrefix(items, list, RankKey("volume"), n)
    ensures forall i, j :: 0 <= i < j < |items| ==> OrElse(items[i].volume24h, -1.0) >= OrElse(items[j].volume24h, -1.0)
  {
    forall i, j | 0 <= i < j < |items|
      ensures OrElse(items[i].volume24h, -1.0) >= OrElse(items[j].volume24h, -1.0)
    {
      assert RankKey("volume")(items[i]) <= RankKey("volume")(items[j]);
    }
  }

  /** `trending`, and any type not listed, is descending by `value24h`, a missing value counting as -1. */
  lemma TrendingOrder(sortType: string, items: seq<Coin>, list: seq<Coin>, n: nat)
    requires sortType != "gainers" && sortType != "losers" && sortType != "volume"
    requires IsSortedPrefix(items, list, RankKey(sortType), n)
    ensures forall i, j :: 0 <= i < j < |items| ==> OrElse(items[i].value24h, -1.0) >= OrElse(items[j].value24h, -1.0)
  {
    forall i, j | 0 <= i < j < |items|
      ensures OrElse(items[i].value24h, -1.0) >= OrElse(items[j].value24h, -1.0)
    {
      assert RankKey(sortType)(items[i]) <= RankKey(sortType)(items[j]);
    }
  }

  /** `Date.now() - cache.at < TTL && cache.data.length`. */
  predicate Fresh(cacheAt: int, cacheData: seq<Coin>, now: int) {
    now - cacheAt < TtlMs && |cacheData| > 0
  }

  /** An empty cache is never served, however recent. */
  lemma EmptyCacheIsStale(cacheAt: int, now: int)
    ensures !Fresh(cacheAt, [], now)
  {
  }
}

/** The handler of src/routes/coins.js with its module-level cache. */
module Coins {
  import opened Wrappers
  import opened Sorting
  import opened CoinsList

  /** `sortAndSlice(list, type, limit)`: a sorted copy of `list`, cut to `limit` when one is set. */
  method SortAndSlice(list: seq<Coin>, sortType: string, limit: Option<nat>) returns (items: seq<Coin>)
    ensures IsSortedPrefix(items, list, RankKey(sortType), KeepCount(limit, |list|))
  {
    items := SortedPrefix(list, RankKey(sortType), KeepCount(limit, |list|));
  }

  /** The loop `for (i = 0; i < xs.length; i += size) chunks.push(xs.slice(i, i + size))`. */
  method Chunk<T>(xs: seq<T>, size: nat) returns (chunks: seq<seq<T>>)
    requires size > 0
    ensures chunks == ChunksOf(xs, size)
  {
    chunks := [];
    var i := 0;
    while i < |xs|
      invariant 0 <= i
      invariant chunks + ChunksOf(xs[if i < |xs| then i else |xs|..], size) == ChunksOf(xs, size)
      decreases |xs| - i
    {
      var hi := if i + size < |xs| then i + size else |xs|;
      ChunksOfFront(xs, i, size);
      chunks := chunks + [xs[i..hi]];
      i := i + size;
    }
    assert xs[|xs|..] == [];
  }

  /** The loop `for (const c of chunks) tickers.push(...await jfetch(...))`; `None` when a request throws. */
  method FetchTickers(chunks: seq<seq<Listing>>, fetch: seq<string> -> Option<seq<Ticker>>) returns (r: Option<seq<Ticker>>)
    ensures r == FetchAll(chunks, fetch)
  {
    var tickers: seq<Ticker> := [];
    var k := 0;
    while k < |chunks|
      invariant 0 <= k <= |chunks|
      invariant FetchAll(chunks[..k], fetch) == Some(tickers)
    {
      assert chunks[..k + 1][..k] == chunks[..k];
      var t := fetch(MarketCodes(chunks[k]));
      if t.None? {
        FetchAllFailsFrom(chunks, fetch, k + 1);
        return None;
      }
      tickers := tickers + t.value;
      k := k + 1;
    }
    assert chunks[..k] == chunks;
    r := Some(tickers);
  }

  /** Once a prefix of the requests fails, the whole run fails. */
  lemma {:induction false} FetchAllFailsFrom(chunks: seq<seq<Listing>>, fetch: seq<string> -> Option<seq<Ticker>>, k: nat)
    requires k <= |chunks| && FetchAll(chunks[..k], fetch).None?
    ensures FetchAll(chunks, fetch).None?
    decreases |chunks| - k
  {
    if k < |chunks| {
      assert chunks[..k + 1][..k] == chunks[..k];
      FetchAllFailsFrom(chunks, fetch, k + 1);
    } else {
      assert chunks[..k] == chunks;
    }
  }

  datatype Response = Items(items: seq<Coin>) | Failure(code: string)

  class Route {
    /** `cache.at` and `cache.data`. */
    var cacheAt: int
    var cacheData: seq<Coin>

    /** `let cache = { at: 0, data: [] }`. */
    constructor ()
      ensures cacheAt == 0 && cacheData == []
    {
      cacheAt := 0;
      cacheData := [];
    }

    /**
     * GET /api/coins at time `now`. `marketsAll` is the `/market/all` answer
     * (`None` when the request throws) and `fetch` the `/ticker` call.
     */
    method Get(typeQ: Option<string>, limitQ: Option<string>, now: int,
               marketsAll: Option<seq<Market>>, fetch: seq<string> -> Option<seq<Ticker>>) returns (response: Response)
      modifies this
      ensures old(Fresh(cacheAt, cacheData, now)) ==>
        && cacheAt == old(cacheAt) && cacheData == old(cacheData)
        && response.Items?
        && IsSortedPrefix(response.items, cacheData, RankKey(SortType(typeQ)), KeepCount(ParseLimit(limitQ), |cacheData|))
      ensures !old(Fresh(cacheAt, cacheData, now)) &&
              (marketsAll.None? || FetchAll(ChunksOf(KrwMarkets(marketsAll.value), ChunkSize), fetch).None?) ==>
        cacheAt == old(cacheAt) && cacheData == old(cacheData) && response == Failure("E_COINS")
      ensures !old(Fresh(cacheAt, cacheData, now)) && marketsAll.Some? &&
              FetchAll(ChunksOf(KrwMarkets(marketsAll.value), ChunkSize), fetch).Some? ==>
        && cacheAt == now
        && cacheData == Merge(KrwMarkets(marketsAll.value), FetchAll(ChunksOf(KrwMarkets(marketsAll.value), ChunkSize), fetch).value)
        && response.Items?
        && IsSortedPrefix(response.items, cacheData, RankKey(SortType(typeQ)), KeepCount(ParseLimit(limitQ), |cacheData|))
    {
      var sortType := SortType(typeQ);
      var limit := ParseLimit(limitQ);
      if now - cacheAt < TtlMs && |cacheData| > 0 {
        var items := SortAndSlice(cacheData, sortType, limit);
        return Items(items);
      }
      if marketsAll.None? {
        return Failure("E_COINS");
      }
      var krwMarkets := KrwMarkets(marketsAll.value);
      var chunks := Chunk(krwMarkets, ChunkSize);
      var tickers := FetchTickers(chunks, fetch);
      if tickers.None? {
        return Failure("E_COINS");
      }
      var merged := Merge(krwMarkets, tickers.value);
      cacheAt := now;
      cacheData := merged;
      var items := SortAndSlice(merged, sortType, limit);
      response := Items(items);
    }
  }
}
