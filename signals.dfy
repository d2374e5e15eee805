/**
 * src/routes/signals.js: GET /api/signals. The 60 most traded KRW markets
 * without a caution flag are scored on their last 120 five-minute candles,
 * and the positive scores are returned best first, at most `limit` of them.
 * Fetched market lists and candles are kept in one in-memory TTL cache.
 */
module SignalScoring {
  import opened Wrappers

  /** A value produced by `Number(...)`: `NaN` or a number. */
  datatype JsNumber = NaN | Num(value: real)

  /** `x < n` for a number `x`: false whenever `n` is `NaN`. */
  predicate LessThan(x: real, n: JsNumber) {
    n.Num? && x < n.value
  }

  /** `x || 0` for an optional figure. */
  function OrZero(x: Option<real>): real {
    if x.Some? then x.value else 0.0
  }

  /**
   * `Math.max(1, Math.min(20, Number(limit) || 5))`, then the count
   * `slice(0, limit)` keeps: the limit rounded down.
   */
  function SignalLimit(q: JsNumber): (r: nat)
    ensures 1 <= r <= 20
    ensures q == NaN || q == Num(0.0) ==> r == 5
    ensures q.Num? && q.value != 0.0 && q.value <= 1.0 ==> r == 1
    ensures q.Num? && q.value >= 20.0 ==> r == 20
    ensures q.Num? && 1.0 <= q.value <= 20.0 ==> r == q.value.Floor
  {
    var v := if q.Num? && q.value != 0.0 then q.value else 5.0;
    var l := if v > 20.0 then 20.0 else if v < 1.0 then 1.0 else v;
    l.Floor
  }

  /** `Number(q ?? fallback)`: an absent query parameter gives the fallback. */
  function QueryNumber(q: Option<JsNumber>, fallback: real): JsNumber {
    if q.Some? then q.value else Num(fallback)
  }

  /** The six conditions `scoreSignal` derives from the candles; their computation is not modelled. */
  datatype Indicators = Indicators(macdCross: bool, rsiCrossUp30: bool, rsiBull: bool, aboveEma: bool,
                                   volSurge: bool, priceUp: bool)

  datatype Condition = MacdCross | RsiCrossUp30 | RsiBull | AboveEma | VolSurge | PriceUp

  function Fires(c: Condition, ind: Indicators): bool {
    match c
    case MacdCross => ind.macdCross
    case RsiCrossUp30 => ind.rsiCrossUp30
    case RsiBull => ind.rsiBull
    case AboveEma => ind.aboveEma
    case VolSurge => ind.volSurge
    case PriceUp => ind.priceUp
  }

  /** A line of the scoring table: its weight, and the reason it adds (none for `priceUp`). */
  datatype Rule = Rule(condition: Condition, weight: nat, reason: Option<string>)

  const Rules: seq<Rule> := [
    Rule(MacdCross, 30, Some("MACD 골든크로스")),
    Rule(RsiCrossUp30, 20, Some("RSI 30 상향돌파")),
    Rule(RsiBull, 10, Some("RSI 상승세")),
    Rule(AboveEma, 20, Some("종가 EMA20 상방")),
    Rule(VolSurge, 20, Some("거래량 급증")),
    Rule(PriceUp, 5, None)
  ]

  /** The sum of the weights of the rules that fire. */
  function TableScore(rules: seq<Rule>, ind: Indicators): nat {
    if rules == [] then 0
    else (if Fires(rules[0].condition, ind) then rules[0].weight else 0) + TableScore(rules[1..], ind)
  }

  /** The labels of the rules that fire, in table order. */
  function TableReasons(rules: seq<Rule>, ind: Indicators): seq<string> {
    if rules == [] then []
    else
      (if Fires(rules[0].condition, ind) && rules[0].reason.Some? then [rules[0].reason.value] else [])
      + TableReasons(rules[1..], ind)
  }

  /** How many labelled rules fire. */
  function LabelledFired(rules: seq<Rule>, ind: Indicators): nat {
    if rules == [] then 0
    else (if Fires(rules[0].condition, ind) && rules[0].reason.Some? then 1 else 0) + LabelledFired(rules[1..], ind)
  }

  /** `Math.min(100, Math.round(score))` on an integer score. */
  function Cap(score: nat): nat {
    if score < 100 then score else 100
  }

  /** There is one reason per firing labelled rule. */
  lemma {:induction false} ReasonsCounted(rules: seq<Rule>, ind: Indicators)
    ensures |TableReasons(rules, ind)| == LabelledFired(rules, ind)
  {
    if rules != [] {
      ReasonsCounted(rules[1..], ind);
    }
  }

  /** The table score is positive exactly when some rule with a positive weight fires. */
  lemma {:induction false} TableScorePositive(rules: seq<Rule>, ind: Indicators)
    ensures TableScore(rules, ind) > 0 <==> exists i :: 0 <= i < |rules| && Fires(rules[i].condition, ind) && rules[i].weight > 0
  {
    if rules != [] {
      TableScorePositive(rules[1..], ind);
      if TableScore(rules[1..], ind) > 0 {
        var i :| 0 <= i < |rules[1..]| && Fires(rules[1..][i].condition, ind) && rules[1..][i].weight > 0;
        assert rules[i + 1] == rules[1..][i];
      }
      forall i | 1 <= i < |rules| && Fires(rules[i].condition, ind) && rules[i].weight > 0
        ensures TableScore(rules[1..], ind) > 0
      {
        assert rules[1..][i - 1] == rules[i];
      }
    }
  }

  /** The shipped weights add up to 105, so the cap of 100 is reached when every condition holds. */
  lemma AllConditionsCapped()
    ensures TableScore(Rules, Indicators(true, true, true, true, true, true)) == 105
    ensures Cap(TableScore(Rules, Indicators(true, true, true, true, true, true))) == 100
  {
  }

  /** A rising close alone scores 5 and gives no reason. */
  lemma PriceUpAlone()
    ensures TableScore(Rules, Indicators(false, false, false, false, false, true)) == 5
    ensures TableReasons(Rules, Indicators(false, false, false, false, false, true)) == []
  {
  }

  /** Concatenation is associative. */
  lemma AppendAssoc<T>(a: seq<T>, b: seq<T>, c: seq<T>)
    ensures (a + b) + c == a + (b + c)
  {
  }

  /** One rule in front of a table adds its own weight and reason, if it fires, ahead of the rest. */
  lemma TableCons(r: Rule, rest: seq<Rule>, ind: Indicators)
    ensures TableScore([r] + rest, ind) == (if Fires(r.condition, ind) then r.weight else 0) + TableScore(rest, ind)
    ensures TableReasons([r] + rest, ind) ==
      (if Fires(r.condition, ind) && r.reason.Some? then [r.reason.value] else []) + TableReasons(rest, ind)
  {
    assert ([r] + rest)[1..] == rest;
  }

  /** The shipped table, row by row. */
  lemma RulesSplit()
    ensures Rules == [Rules[0]] + ([Rules[1]] + ([Rules[2]] + ([Rules[3]] + ([Rules[4]] + ([Rules[5]] + [])))))
  {
  }

  /** The shipped weights spelled out: 30, 20, 10, 20, 20 and 5. */
  lemma ShippedScore(ind: Indicators)
    ensures TableScore(Rules, ind) ==
      (if ind.macdCross then 30 else 0) + (if ind.rsiCrossUp30 then 20 else 0) + (if ind.rsiBull then 10 else 0)
      + (if ind.aboveEma then 20 else 0) + (if ind.volSurge then 20 else 0) + (if ind.priceUp then 5 else 0)
  {
    RulesSplit();
    var t5: seq<Rule> := [Rules[5]] + [];
    var t4 := [Rules[4]] + t5;
    var t3 := [Rules[3]] + t4;
    var t2 := [Rules[2]] + t3;
    var t1 := [Rules[1]] + t2;
    TableCons(Rules[5], [], ind);
    TableCons(Rules[4], t5, ind);
    TableCons(Rules[3], t4, ind);
    TableCons(Rules[2], t3, ind);
    TableCons(Rules[1], t2, ind);
    TableCons(Rules[0], t1, ind);
  }

  /** The shipped reasons spelled out, in table order; a rising close adds none. */
  lemma ShippedReasons(ind: Indicators)
    ensures TableReasons(Rules, ind) ==
      (if ind.macdCross then ["MACD 골든크로스"] else []) + ((if ind.rsiCrossUp30 then ["RSI 30 상향돌파"] else [])
      + ((if ind.rsiBull then ["RSI 상승세"] else []) + ((if ind.aboveEma then ["종가 EMA20 상방"] else [])
      + (if ind.volSurge then ["거래량 급증"] else []))))
  {
    RulesSplit();
    var t5: seq<Rule> := [Rules[5]] + [];
    var t4 := [Rules[4]] + t5;
    var t3 := [Rules[3]] + t4;
    var t2 := [Rules[2]] + t3;
    var t1 := [Rules[1]] + t2;
    TableCons(Rules[5], [], ind);
    TableCons(Rules[4], t5, ind);
    TableCons(Rules[3], t4, ind);
    TableCons(Rules[2], t3, ind);
    TableCons(Rules[1], t2, ind);
    TableCons(Rules[0], t1, ind);
  }

  /** With the shipped table, a score is positive exactly when at least one condition holds. */
  lemma ScorePositiveIffSomeCondition(ind: Indicators)
    ensures Cap(TableScore(Rules, ind)) > 0 <==>
      ind.macdCross || ind.rsiCrossUp30 || ind.rsiBull || ind.aboveEma || ind.volSurge || ind.priceUp
  {
    ShippedScore(ind);
  }

  /** A candle in chronological order; a missing figure is `None`. */
  datatype Candle = Candle(tradePrice: Option<real>, volume: Option<real>)

  /** An entry of `/market/all?isDetails=true`. */
  datatype MarketRow = MarketRow(market: Option<string>, koreanName: string, englishName: string,
                                 marketWarning: Option<string>, accTradePrice24h: Option<real>)

  predicate IsKrw(m: MarketRow) {
    m.market.Some? && |m.market.value| >= 4 && m.market.value[..4] == "KRW-"
  }

  /** `list.filter(m => m.market?.startsWith('KRW-'))`. */
  function KrwOnly(list: seq<MarketRow>): (r: seq<MarketRow>)
    ensures |r| <= |list| && forall i :: 0 <= i < |r| ==> IsKrw(r[i])
    ensures forall m :: m in r <==> m in list && IsKrw(m)
  {
    if list == [] then []
    else (if IsKrw(list[0]) then [list[0]] else []) + KrwOnly(list[1..])
  }

  /** `markets.filter(m => m.market_warning !== 'CAUTION')`. */
  function WithoutCaution(list: seq<MarketRow>): (r: seq<MarketRow>)
    ensures |r| <= |list| && forall i :: 0 <= i < |r| ==> r[i].marketWarning != Some("CAUTION")
    ensures forall m :: m in r <==> m in list && m.marketWarning != Some("CAUTION")
  {
    if list == [] then []
    else (if list[0].marketWarning != Some("CAUTION") then [list[0]] else []) + WithoutCaution(list[1..])
  }

  /** A one-row list keeps its row exactly when the row is a KRW market. */
  lemma KrwOnlySingle(m: MarketRow)
    ensures KrwOnly([m]) == if IsKrw(m) then [m] else []
  {
    assert [m][1..] == [];
  }

  /** The KRW filter distributes over concatenation: kept rows keep their order and multiplicity. */
  lemma {:induction false} KrwOnlyAppend(a: seq<MarketRow>, b: seq<MarketRow>)
    ensures KrwOnly(a + b) == KrwOnly(a) + KrwOnly(b)
    decreases |a|
  {
    if a == [] {
      assert a + b == b;
    } else {
      assert (a + b)[0] == a[0] && (a + b)[1..] == a[1..] + b;
      var head := if IsKrw(a[0]) then [a[0]] else [];
      assert KrwOnly(a + b) == head + KrwOnly(a[1..] + b);
      KrwOnlyAppend(a[1..], b);
      AppendAssoc(head, KrwOnly(a[1..]), KrwOnly(b));
    }
  }

  /** A one-row list keeps its row exactly when the row carries no caution. */
  lemma WithoutCautionSingle(m: MarketRow)
    ensures WithoutCaution([m]) == if m.marketWarning != Some("CAUTION") then [m] else []
  {
    assert [m][1..] == [];
  }

  /** The caution filter distributes over concatenation: kept rows keep their order and multiplicity. */
  lemma {:induction false} WithoutCautionAppend(a: seq<MarketRow>, b: seq<MarketRow>)
    ensures WithoutCaution(a + b) == WithoutCaution(a) + WithoutCaution(b)
    decreases |a|
  {
    if a == [] {
      assert a + b == b;
    } else {
      assert (a + b)[0] == a[0] && (a + b)[1..] == a[1..] + b;
      var head := if a[0].marketWarning != Some("CAUTION") then [a[0]] else [];
      assert WithoutCaution(a + b) == head + WithoutCaution(a[1..] + b);
      WithoutCautionAppend(a[1..], b);
      AppendAssoc(head, WithoutCaution(a[1..]), WithoutCaution(b));
    }
  }

  /** The descending `acc_trade_price_24h || 0` order, as a key sorted ascending. */
  function TradeValueKey(m: MarketRow): real {
    -OrZero(m.accTradePrice24h)
  }

  /** An item of the answer. The rounded percent change is not modelled. */
  datatype SignalItem = SignalItem(market: string, symbol: string, nameKo: string, nameEn: string,
                                   price: Option<real>, score: nat, reason: seq<string>)

  /** The best-first order of the answer, as a key sorted ascending. */
  function ScoreKey(s: SignalItem): real {
    -(s.score as real)
  }

  /** A candidate `out` may hold: a KRW market with a positive score whose last price passed the minimum. */
  predicate Qualifies(s: SignalItem, minPrice: JsNumber) {
    && s.score > 0
    && |s.market| >= 4 && s.market[..4] == "KRW-" && s.symbol == s.market[4..]
    && !LessThan(OrZero(s.price), minPrice)
  }

  /**
   * One market's pass through the handler's loop, given its candle series
   * and the indicator values of that series: no item for an empty series,
   * a last price below `minPrice`, a last volume below `minVol`, or a score
   * of 0 (which fewer than 40 candles always get).
   */
  function CandidateOf(m: MarketRow, candles: seq<Candle>, minPrice: JsNumber, minVol: JsNumber, ind: Indicators): Option<SignalItem>
    requires IsKrw(m)
  {
    if |candles| == 0 then None
    else
      var last := candles[|candles| - 1];
      if LessThan(OrZero(last.tradePrice), minPrice) || LessThan(OrZero(last.volume), minVol) then None
      else
        var score := if |candles| < 40 then 0 else Cap(TableScore(Rules, ind));
        var reason := if |candles| < 40 then [] else TableReasons(Rules, ind);
        if score <= 0 then None
        else Some(SignalItem(m.market.value, m.market.value[4..], m.koreanName, m.englishName, last.tradePrice, score, reason))
  }

  /**
   * An item exactly for at least 40 candles whose last price and volume
   * meet the minimums and a positive rule score; it carries the market's
   * names, the last price, the capped score and the rules' reasons.
   */
  lemma CandidateOfSpec(m: MarketRow, candles: seq<Candle>, minPrice: JsNumber, minVol: JsNumber, ind: Indicators)
    requires IsKrw(m)
    ensures var r := CandidateOf(m, candles, minPrice, minVol, ind);
      && (r.Some? <==>
            && |candles| >= 40
            && !LessThan(OrZero(candles[|candles| - 1].tradePrice), minPrice)
            && !LessThan(OrZero(candles[|candles| - 1].volume), minVol)
            && TableScore(Rules, ind) > 0)
      && (r.Some? ==>
            && Qualifies(r.value, minPrice)
            && r.value.market == m.market.value && r.value.nameKo == m.koreanName && r.value.nameEn == m.englishName
            && r.value.price == candles[|candles| - 1].tradePrice
            && r.value.score == Cap(TableScore(Rules, ind)) && r.value.reason == TableReasons(Rules, ind))
  {
  }
}

/** The module-level cache of src/routes/signals.js as a class, and the handler around it. */
module Signals {
  import opened Wrappers
  import opened Sorting
  import opened SignalScoring

  /** What the cache holds under a key: the market list or one market's candles. */
  datatype CacheValue = Markets(markets: seq<MarketRow>) | Candles(candles: seq<Candle>)

  /** `{ d, t }`: the data and the time it was stored. */
  datatype Entry = Entry(d: CacheValue, t: int)

  datatype Lookup = Lookup(value: Option<CacheValue>, entries: map<string, Entry>)

  const MarketsKey := "krw_markets"

  /** 30 seconds for candles, 5 minutes for the market list. */
  const CandleTtlMs := 30000
  const MarketsTtlMs := 5 * 60 * 1000

  /** The key `c:${unit}:${market}:${count}` with unit 5 and count 120. */
  function CandleKey(market: string): string {
    "c:5:" + market + ":120"
  }

  /**
   * `getCache(k, ttlMs)`: a missing key misses; an entry older than
   * `ttlMs` is deleted and misses; otherwise its data is returned.
   */
  function CacheGet(entries: map<string, Entry>, k: string, ttlMs: int, now: int): (r: Lookup)
    ensures k !in entries ==> r == Lookup(None, entries)
    ensures k in entries && now - entries[k].t > ttlMs ==> r == Lookup(None, entries - {k})
    ensures k in entries && now - entries[k].t <= ttlMs ==> r == Lookup(Some(entries[k].d), entries)
  {
    if k !in entries then Lookup(None, entries)
    else if now - entries[k].t > ttlMs then Lookup(None, entries - {k})
    else Lookup(Some(entries[k].d), entries)
  }

  /** `setCache(k, d)`: the entry for `k` becomes `d` stamped `now`; other keys are unchanged. */
  function CacheSet(entries: map<string, Entry>, k: string, d: CacheValue, now: int): (r: map<string, Entry>)
    ensures r.Keys == entries.Keys + {k}
    ensures r[k] == Entry(d, now)
    ensures forall other :: other in entries && other != k ==> r[other] == entries[other]
  {
    entries[k := Entry(d, now)]
  }

  /** What is stored is read back while it is at most `ttlMs` old, age equal to `ttlMs` included. */
  lemma SetThenGetHit(entries: map<string, Entry>, k: string, d: CacheValue, now: int, ttlMs: int, later: int)
    requires later - now <= ttlMs
    ensures CacheGet(CacheSet(entries, k, d, now), k, ttlMs, later).value == Some(d)
  {
  }

  /** Past `ttlMs` the entry is gone and the read misses. */
  lemma SetThenGetExpired(entries: map<string, Entry>, k: string, d: CacheValue, now: int, ttlMs: int, later: int)
    requires later - now > ttlMs
    ensures CacheGet(CacheSet(entries, k, d, now), k, ttlMs, later).value == None
    ensures k !in CacheGet(CacheSet(entries, k, d, now), k, ttlMs, later).entries
  {
  }

  /** Storing under one key does not change what another key reads. */
  lemma SetLeavesOtherKeys(entries: map<string, Entry>, k: string, d: CacheValue, now: int, other: string, ttlMs: int, later: int)
    requires other != k
    ensures CacheGet(CacheSet(entries, k, d, now), other, ttlMs, later).value == CacheGet(entries, other, ttlMs, later).value
  {
  }

  /** The market key never looks like a candle key, so the two kinds of entry never collide. */
  lemma KeysDisjoint(market: string)
    ensures CandleKey(market) != MarketsKey
  {
    assert CandleKey(market)[0] == 'c' && MarketsKey[0] == 'k';
  }

  /**
   * `scoreSignal(candles)` with the indicator values given: fewer than 40
   * candles score 0 with no reason; otherwise the weights of the
   * conditions that hold are added up, capped at 100, and the labelled
   * ones give the reasons in order.
   */
  method ScoreSignal(candles: seq<Candle>, ind: Indicators) returns (score: nat, reason: seq<string>)
    ensures |candles| < 40 ==> score == 0 && reason == []
    ensures |candles| >= 40 ==> score == Cap(TableScore(Rules, ind)) && reason == TableReasons(Rules, ind)
  {
    if |candles| < 40 {
      return 0, [];
    }
    var s := 0;
    reason := [];
    ghost var l1: seq<string> := if ind.macdCross then ["MACD 골든크로스"] else [];
    ghost var l2: seq<string> := if ind.rsiCrossUp30 then ["RSI 30 상향돌파"] else [];
    ghost var l3: seq<string> := if ind.rsiBull then ["RSI 상승세"] else [];
    ghost var l4: seq<string> := if ind.aboveEma then ["종가 EMA20 상방"] else [];
    ghost var l5: seq<string> := if ind.volSurge then ["거래량 급증"] else [];
    if ind.macdCross {
      s := s + 30;
      reason := reason + ["MACD 골든크로스"];
    }
    assert reason == l1;
    if ind.rsiCrossUp30 {
      s := s + 20;
      reason := reason + ["RSI 30 상향돌파"];
    }
    assert reason == l1 + l2;
    if ind.rsiBull {
      s := s + 10;
      reason := reason + ["RSI 상승세"];
    }
    assert reason == (l1 + l2) + l3;
    if ind.aboveEma {
      s := s + 20;
      reason := reason + ["종가 EMA20 상방"];
    }
    assert reason == ((l1 + l2) + l3) + l4;
    if ind.volSurge {
      s := s + 20;
      reason := reason + ["거래량 급증"];
    }
    assert reason == (((l1 + l2) + l3) + l4) + l5;
    if ind.priceUp {
      s := s + 5;
    }
    score := if s < 100 then s else 100;
    ShippedScore(ind);
    ShippedReasons(ind);
    AppendAssoc(l1 + l2, l3 + l4, l5);
    AppendAssoc(l1, l2, l3 + (l4 + l5));
    AppendAssoc(l3, l4, l5);
    AppendAssoc(l1 + l2, l3, l4);
  }

  /** The series `getCandles(market, 120, 5)` answers from cache `entries`: the cached one, or the fetched rows (or `[]`) reversed. */
  function CandlesFor(entries: map<string, Entry>, market: string, now: int, fetched: Option<seq<Candle>>): seq<Candle> {
    match CacheGet(entries, CandleKey(market), CandleTtlMs, now).value
    case Some(Candles(cs)) => cs
    case _ => Reverse(if fetched.Some? then fetched.value else [])
  }

  /** The cache `getCandles(market, 120, 5)` leaves behind: the lookup's, plus the reversed fetch stored on a miss. */
  function CandleEntries(entries: map<string, Entry>, market: string, now: int, fetched: Option<seq<Candle>>): map<string, Entry> {
    var g := CacheGet(entries, CandleKey(market), CandleTtlMs, now);
    if g.value.Some? then g.entries
    else CacheSet(g.entries, CandleKey(market), Candles(Reverse(if fetched.Some? then fetched.value else [])), now)
  }

  /** The list `getKrwMarkets()` answers from cache `entries`: the cached one, or the fetched list (or `[]`) filtered to KRW. */
  function MarketsFor(entries: map<string, Entry>, now: int, fetched: Option<seq<MarketRow>>): seq<MarketRow> {
    match CacheGet(entries, MarketsKey, MarketsTtlMs, now).value
    case Some(Markets(ms)) => ms
    case _ => KrwOnly(if fetched.Some? then fetched.value else [])
  }

  /** The cache `getKrwMarkets()` leaves behind. */
  function MarketsEntries(entries: map<string, Entry>, now: int, fetched: Option<seq<MarketRow>>): map<string, Entry> {
    var g := CacheGet(entries, MarketsKey, MarketsTtlMs, now);
    if g.value.Some? then g.entries
    else CacheSet(g.entries, MarketsKey, Markets(KrwOnly(if fetched.Some? then fetched.value else [])), now)
  }

  /**
   * A run of the handler's loop: the items, the position in `top` of the
   * market each item came from, and the cache the run leaves.
   */
  datatype Pass = Pass(items: seq<SignalItem>, picked: seq<nat>, entries: map<string, Entry>)

  /**
   * The shape of a run over `top`: every item qualifies, `picked[i]` is
   * the position of the KRW market item `i` came from, and the positions
   * strictly increase (at most one item per market, in market order).
   */
  predicate Fits(top: seq<MarketRow>, r: Pass, minPrice: JsNumber) {
    && |r.items| == |r.picked| <= |top|
    && (forall i :: 0 <= i < |r.items| ==> Qualifies(r.items[i], minPrice))
    && (forall i :: 0 <= i < |r.picked| ==>
          r.picked[i] < |top| && IsKrw(top[r.picked[i]]) && r.items[i].market == top[r.picked[i]].market.value)
    && (forall i, j :: 0 <= i < j < |r.picked| ==> r.picked[i] < r.picked[j])
  }

  /** The first market's optional item in front of a run over the rest. */
  function Cons(item: Option<SignalItem>, rest: Pass): Pass {
    Pass((if item.Some? then [item.value] else []) + rest.items,
         (if item.Some? then [0] else []) + Shift(rest.picked),
         rest.entries)
  }

  /** Every position moved up by one. */
  function Shift(p: seq<nat>): (r: seq<nat>)
    ensures |r| == |p| && forall i :: 0 <= i < |p| ==> r[i] == p[i] + 1
  {
    if p == [] then [] else [p[0] + 1] + Shift(p[1..])
  }

  lemma ConsFits(top: seq<MarketRow>, item: Option<SignalItem>, rest: Pass, minPrice: JsNumber)
    requires |top| > 0 && IsKrw(top[0]) && Fits(top[1..], rest, minPrice)
    requires item.Some? ==> Qualifies(item.value, minPrice) && item.value.market == top[0].market.value
    ensures Fits(top, Cons(item, rest), minPrice)
  {
    var sh := Shift(rest.picked);
    ShiftFits(top, rest, sh, minPrice);
    if item.Some? {
      PrependFits(top, item.value, Pass(rest.items, sh, rest.entries), minPrice);
    } else {
      assert Cons(item, rest) == Pass(rest.items, sh, rest.entries);
    }
  }

  /** A run over `top[1..]` is a run over `top` once its positions move up by one. */
  lemma ShiftFits(top: seq<MarketRow>, rest: Pass, sh: seq<nat>, minPrice: JsNumber)
    requires |top| > 0 && Fits(top[1..], rest, minPrice)
    requires |sh| == |rest.picked| && forall i :: 0 <= i < |sh| ==> sh[i] == rest.picked[i] + 1
    ensures Fits(top, Pass(rest.items, sh, rest.entries), minPrice) && forall i :: 0 <= i < |sh| ==> sh[i] > 0
  {
    forall i | 0 <= i < |sh|
      ensures sh[i] < |top| && IsKrw(top[sh[i]]) && rest.items[i].market == top[sh[i]].market.value
    {
      assert top[sh[i]] == top[1..][rest.picked[i]];
    }
  }

  /** An item from market 0 in front of a run whose positions are all past 0. */
  lemma PrependFits(top: seq<MarketRow>, item: SignalItem, rest: Pass, minPrice: JsNumber)
    requires |top| > 0 && IsKrw(top[0]) && Fits(top, rest, minPrice) && forall i :: 0 <= i < |rest.picked| ==> rest.picked[i] > 0
    requires Qualifies(item, minPrice) && item.market == top[0].market.value
    ensures Fits(top, Pass([item] + rest.items, [0] + rest.picked, rest.entries), minPrice)
  {
    var r := Pass([item] + rest.items, [0] + rest.picked, rest.entries);
    PositionsBound(rest.picked, |top|);
    forall i | 1 <= i < |r.picked|
      ensures r.picked[i] == rest.picked[i - 1] && r.items[i] == rest.items[i - 1]
    {
    }
  }

  /** Strictly increasing positions in `1..n-1` number fewer than `n`. */
  lemma PositionsBound(p: seq<nat>, n: nat)
    requires n > 0 && forall i :: 0 <= i < |p| ==> 0 < p[i] < n
    requires forall i, j :: 0 <= i < j < |p| ==> p[i] < p[j]
    ensures |p| < n
  {
    if |p| > 0 {
      PositionAtLeast(p, |p| - 1);
    }
  }

  lemma {:induction false} PositionAtLeast(p: seq<nat>, k: nat)
    requires k < |p| && forall i :: 0 <= i < |p| ==> 0 < p[i]
    requires forall i, j :: 0 <= i < j < |p| ==> p[i] < p[j]
    ensures p[k] > k
    decreases k
  {
    if k > 0 {
      PositionAtLeast(p, k - 1);
    }
  }

  /**
   * The loop `for (const m of top)` from cache `entries`: each market is
   * looked up against the cache the markets before it left behind, and
   * contributes `CandidateOf` its series.
   */
  function CandidatesFrom(top: seq<MarketRow>, entries: map<string, Entry>, now: int, minPrice: JsNumber, minVol: JsNumber,
                          fetchCandles: string -> Option<seq<Candle>>, indicators: seq<Candle> -> Indicators): Pass
    requires forall i :: 0 <= i < |top| ==> IsKrw(top[i])
    decreases |top|
  {
    if top == [] then Pass([], [], entries)
    else
      assert IsKrw(top[0]);
      var market := top[0].market.value;
      var candles := CandlesFor(entries, market, now, fetchCandles(market));
      var item := CandidateOf(top[0], candles, minPrice, minVol, indicators(candles));
      Cons(item, CandidatesFrom(top[1..], CandleEntries(entries, market, now, fetchCandles(market)),
                                now, minPrice, minVol, fetchCandles, indicators))
  }

  /**
   * Every run of the loop has the shape `Fits` names: only qualifying
   * items, at most one per market, in market order.
   */
  lemma {:induction false} CandidatesFromFits(top: seq<MarketRow>, entries: map<string, Entry>, now: int, minPrice: JsNumber, minVol: JsNumber,
                                              fetchCandles: string -> Option<seq<Candle>>, indicators: seq<Candle> -> Indicators)
    requires forall i :: 0 <= i < |top| ==> IsKrw(top[i])
    ensures Fits(top, CandidatesFrom(top, entries, now, minPrice, minVol, fetchCandles, indicators), minPrice)
    decreases |top|
  {
    if top != [] {
      assert IsKrw(top[0]);
      var market := top[0].market.value;
      var candles := CandlesFor(entries, market, now, fetchCandles(market));
      var item := CandidateOf(top[0], candles, minPrice, minVol, indicators(candles));
      var e := CandleEntries(entries, market, now, fetchCandles(market));
      CandidateOfSpec(top[0], candles, minPrice, minVol, indicators(candles));
      CandidatesFromFits(top[1..], e, now, minPrice, minVol, fetchCandles, indicators);
      ConsFits(top, item, CandidatesFrom(top[1..], e, now, minPrice, minVol, fetchCandles, indicators), minPrice);
    }
  }

  /** One step of the loop: the first market's item, then the rest from the cache its lookup leaves. */
  lemma CandidatesFromFirst(top: seq<MarketRow>, entries: map<string, Entry>, now: int, minPrice: JsNumber, minVol: JsNumber,
                            fetchCandles: string -> Option<seq<Candle>>, indicators: seq<Candle> -> Indicators)
    requires |top| > 0 && IsKrw(top[0]) && forall i :: 0 <= i < |top| ==> IsKrw(top[i])
    ensures var market := top[0].market.value;
      var candles := CandlesFor(entries, market, now, fetchCandles(market));
      var item := CandidateOf(top[0], candles, minPrice, minVol, indicators(candles));
      var rest := CandidatesFrom(top[1..], CandleEntries(entries, market, now, fetchCandles(market)),
                                 now, minPrice, minVol, fetchCandles, indicators);
      var r := CandidatesFrom(top, entries, now, minPrice, minVol, fetchCandles, indicators);
      r.items == (if item.Some? then [item.value] else []) + rest.items && r.entries == rest.entries
  {
  }

  /** The step at position `k` of the loop, in terms of `top` itself. */
  lemma CandidatesFromAt(top: seq<MarketRow>, k: nat, entries: map<string, Entry>, now: int, minPrice: JsNumber, minVol: JsNumber,
                         fetchCandles: string -> Option<seq<Candle>>, indicators: seq<Candle> -> Indicators)
    requires k < |top| && IsKrw(top[k]) && forall i :: 0 <= i < |top| ==> IsKrw(top[i])
    ensures var market := top[k].market.value;
      var candles := CandlesFor(entries, market, now, fetchCandles(market));
      var item := CandidateOf(top[k], candles, minPrice, minVol, indicators(candles));
      var rest := CandidatesFrom(top[k + 1..], CandleEntries(entries, market, now, fetchCandles(market)),
                                 now, minPrice, minVol, fetchCandles, indicators);
      var r := CandidatesFrom(top[k..], entries, now, minPrice, minVol, fetchCandles, indicators);
      r.items == (if item.Some? then [item.value] else []) + rest.items && r.entries == rest.entries
  {
    var t := top[k..];
    assert t[0] == top[k] && t[1..] == top[k + 1..];
    CandidatesFromFirst(t, entries, now, minPrice, minVol, fetchCandles, indicators);
  }

  /**
   * One turn of the loop over `top`: if the pass over `top[k..]` from
   * cache `e0` ends in `r` after `out`, and market `k` yields `item` and
   * leaves cache `e1`, then the pass over `top[k + 1..]` from `e1` ends in
   * `r` after `out` and the item.
   */
  lemma CandidatesStep(top: seq<MarketRow>, k: nat, e0: map<string, Entry>, e1: map<string, Entry>,
                       item: Option<SignalItem>, out: seq<SignalItem>, r: Pass, now: int, minPrice: JsNumber, minVol: JsNumber,
                       fetchCandles: string -> Option<seq<Candle>>, indicators: seq<Candle> -> Indicators)
    requires k < |top| && forall i :: 0 <= i < |top| ==> IsKrw(top[i])
    requires var here := CandidatesFrom(top[k..], e0, now, minPrice, minVol, fetchCandles, indicators);
      r.items == out + here.items && r.entries == here.entries
    requires var candles := CandlesFor(e0, top[k].market.value, now, fetchCandles(top[k].market.value));
      item == CandidateOf(top[k], candles, minPrice, minVol, indicators(candles))
    requires e1 == CandleEntries(e0, top[k].market.value, now, fetchCandles(top[k].market.value))
    ensures var rest := CandidatesFrom(top[k + 1..], e1, now, minPrice, minVol, fetchCandles, indicators);
      r.items == out + (if item.Some? then [item.value] else []) + rest.items && r.entries == rest.entries
  {
    CandidatesFromAt(top, k, e0, now, minPrice, minVol, fetchCandles, indicators);
    var rest := CandidatesFrom(top[k + 1..], e1, now, minPrice, minVol, fetchCandles, indicators);
    AppendAssoc(out, if item.Some? then [item.value] else [], rest.items);
  }

  /**
   * `out.sort((a, b) => b.score - a.score).slice(0, limit)`: the answer
   * holds at most `limit` items, highest score first, each drawn from the
   * qualifying candidates.
   */
  lemma TopQualify(items: seq<SignalItem>, out: seq<SignalItem>, limit: nat, minPrice: JsNumber)
    requires IsSortedPrefix(items, out, ScoreKey, limit)
    requires forall i :: 0 <= i < |out| ==> Qualifies(out[i], minPrice)
    ensures forall i :: 0 <= i < |items| ==> Qualifies(items[i], minPrice)
    ensures forall i, j :: 0 <= i < j < |items| ==> items[i].score >= items[j].score
    ensures |items| <= limit
  {
    forall i, j | 0 <= i < j < |items| ensures items[i].score >= items[j].score {
      assert ScoreKey(items[i]) <= ScoreKey(items[j]);
    }
    forall i | 0 <= i < |items| ensures Qualifies(items[i], minPrice) {
      assert items[i] in multiset(out);
    }
  }

  class Route {
    /** The `cache` Map. */
    var entries: map<string, Entry>

    /** The market-list key holds a list of KRW markets and every other key holds candles. */
    ghost predicate Valid()
      reads this
    {
      forall k :: k in entries ==>
        && (entries[k].d.Markets? <==> k == MarketsKey)
        && (entries[k].d.Markets? ==> forall i :: 0 <= i < |entries[k].d.markets| ==> IsKrw(entries[k].d.markets[i]))
    }

    constructor ()
      ensures entries == map[] && Valid()
    {
      entries := map[];
    }

    method GetCache(k: string, ttlMs: int, now: int) returns (r: Option<CacheValue>)
      modifies this
      ensures Lookup(r, entries) == CacheGet(old(entries), k, ttlMs, now)
    {
      if k !in entries {
        return None;
      }
      var v := entries[k];
      if now - v.t > ttlMs {
        entries := entries - {k};
        return None;
      }
      r := Some(v.d);
    }

    method SetCache(k: string, d: CacheValue, now: int)
      modifies this
      ensures entries == CacheSet(old(entries), k, d, now)
    {
      entries := entries[k := Entry(d, now)];
    }

    /**
     * `getKrwMarkets()`: a cached list is returned as it is (an empty one
     * included); otherwise the fetched list, or `[]` when the request
     * fails, is filtered to KRW markets and cached.
     */
    method GetKrwMarkets(now: int, fetched: Option<seq<MarketRow>>) returns (markets: seq<MarketRow>)
      requires Valid()
      modifies this
      ensures Valid()
      ensures forall i :: 0 <= i < |markets| ==> IsKrw(markets[i])
      ensures CacheGet(old(entries), MarketsKey, MarketsTtlMs, now).value.Some? ==>
        entries == CacheGet(old(entries), MarketsKey, MarketsTtlMs, now).entries &&
        Some(Markets(markets)) == CacheGet(old(entries), MarketsKey, MarketsTtlMs, now).value
      ensures CacheGet(old(entries), MarketsKey, MarketsTtlMs, now).value.None? ==>
        && markets == KrwOnly(if fetched.Some? then fetched.value else [])
        && entries == CacheSet(CacheGet(old(entries), MarketsKey, MarketsTtlMs, now).entries, MarketsKey, Markets(markets), now)
      ensures markets == MarketsFor(old(entries), now, fetched) && entries == MarketsEntries(old(entries), now, fetched)
    {
      var hit := GetCache(MarketsKey, MarketsTtlMs, now);
      if hit.Some? {
        return hit.value.markets;
      }
      markets := KrwOnly(if fetched.Some? then fetched.value else []);
      SetCache(MarketsKey, Markets(markets), now);
    }

    /**
     * `getCandles(market, 120, 5)`: cached candles are returned as they
     * are; otherwise the fetched rows (newest first, `[]` when the request
     * fails) are reversed into chronological order and cached.
     */
    method GetCandles(market: string, now: int, fetched: Option<seq<Candle>>) returns (candles: seq<Candle>)
      requires Valid()
      modifies this
      ensures Valid()
      ensures CacheGet(old(entries), CandleKey(market), CandleTtlMs, now).value.Some? ==>
        entries == CacheGet(old(entries), CandleKey(market), CandleTtlMs, now).entries &&
        Some(Candles(candles)) == CacheGet(old(entries), CandleKey(market), CandleTtlMs, now).value
      ensures CacheGet(old(entries), CandleKey(market), CandleTtlMs, now).value.None? ==>
        && candles == Reverse(if fetched.Some? then fetched.value else [])
        && entries == CacheSet(CacheGet(old(entries), CandleKey(market), CandleTtlMs, now).entries, CandleKey(market), Candles(candles), now)
      ensures candles == CandlesFor(old(entries), market, now, fetched) && entries == CandleEntries(old(entries), market, now, fetched)
    {
      KeysDisjoint(market);
      var hit := GetCache(CandleKey(market), CandleTtlMs, now);
      if hit.Some? {
        return hit.value.candles;
      }
      candles := Reverse(if fetched.Some? then fetched.value else []);
      SetCache(CandleKey(market), Candles(candles), now);
    }

    /**
     * One pass of the handler's loop for KRW market `m`: its candles (a
     * cached or fetched series), the price and volume filters on the last
     * candle, and the score. `None` is `continue`.
     */
    method Candidate(m: MarketRow, now: int, minPrice: JsNumber, minVol: JsNumber,
                     fetchCandles: string -> Option<seq<Candle>>, indicators: seq<Candle> -> Indicators)
      returns (item: Option<SignalItem>)
      requires Valid() && IsKrw(m)
      modifies this
      ensures Valid()
      ensures var candles := CandlesFor(old(entries), m.market.value, now, fetchCandles(m.market.value));
        item == CandidateOf(m, candles, minPrice, minVol, indicators(candles))
      ensures entries == CandleEntries(old(entries), m.market.value, now, fetchCandles(m.market.value))
    {
      var candles := GetCandles(m.market.value, now, fetchCandles(m.market.value));
      if |candles| == 0 {
        return None;
      }
      var last := candles[|candles| - 1];
      if LessThan(OrZero(last.tradePrice), minPrice) || LessThan(OrZero(last.volume), minVol) {
        return None;
      }
      var score, reason := ScoreSignal(candles, indicators(candles));
      if score <= 0 {
        return None;
      }
      item := Some(SignalItem(m.market.value, m.market.value[4..], m.koreanName, m.englishName, last.tradePrice, score, reason));
    }

    /** The loop `for (const m of top)`: its output and the cache it leaves are `CandidatesFrom`'s. */
    method Candidates(top: seq<MarketRow>, now: int, minPrice: JsNumber, minVol: JsNumber,
                      fetchCandles: string -> Option<seq<Candle>>, indicators: seq<Candle> -> Indicators)
      returns (out: seq<SignalItem>)
      requires Valid() && forall i :: 0 <= i < |top| ==> IsKrw(top[i])
      modifies this
      ensures Valid()
      ensures var r := CandidatesFrom(top, old(entries), now, minPrice, minVol, fetchCandles, indicators);
        out == r.items && entries == r.entries
    {
      ghost var r := CandidatesFrom(top, entries, now, minPrice, minVol, fetchCandles, indicators);
      out := [];
      var k := 0;
      assert top[0..] == top;
      while k < |top|
        invariant 0 <= k <= |top|
        invariant Valid()
        invariant var rest := CandidatesFrom(top[k..], entries, now, minPrice, minVol, fetchCandles, indicators);
          r.items == out + rest.items && r.entries == rest.entries
      {
        ghost var e0 := entries;
        var item := Candidate(top[k], now, minPrice, minVol, fetchCandles, indicators);
        CandidatesStep(top, k, e0, entries, item, out, r, now, minPrice, minVol, fetchCandles, indicators);
        out := out + if item.Some? then [item.value] else [];
        k := k + 1;
      }
      assert top[k..] == [];
    }

    /**
     * The handler at time `now`. The market list, each market's candle
     * rows and the indicator values of a candle series are given as
     * parameters. The answer holds only qualifying items, best score
     * first: the `limit` best of all qualifying candidates.
     */
    method Handle(limitQ: JsNumber, minPriceQ: Option<JsNumber>, minVolQ: Option<JsNumber>, now: int,
                  fetchedMarkets: Option<seq<MarketRow>>, fetchCandles: string -> Option<seq<Candle>>,
                  indicators: seq<Candle> -> Indicators) returns (items: seq<SignalItem>, out: seq<SignalItem>, top: seq<MarketRow>)
      requires Valid()
      modifies this
      ensures Valid()
      ensures IsSortedPrefix(top, WithoutCaution(MarketsFor(old(entries), now, fetchedMarkets)), TradeValueKey, 60)
      ensures forall i :: 0 <= i < |top| ==> IsKrw(top[i])
      ensures var r := CandidatesFrom(top, MarketsEntries(old(entries), now, fetchedMarkets), now,
                                      QueryNumber(minPriceQ, 50.0), QueryNumber(minVolQ, 0.0), fetchCandles, indicators);
        out == r.items && entries == r.entries
      ensures forall i :: 0 <= i < |out| ==> Qualifies(out[i], QueryNumber(minPriceQ, 50.0))
      ensures |out| <= 60
      ensures IsSortedPrefix(items, out, ScoreKey, SignalLimit(limitQ))
      ensures forall i :: 0 <= i < |items| ==> Qualifies(items[i], QueryNumber(minPriceQ, 50.0))
      ensures forall i, j :: 0 <= i < j < |items| ==> items[i].score >= items[j].score
      ensures |items| <= SignalLimit(limitQ)
    {
      var limit := SignalLimit(limitQ);
      var minPrice := QueryNumber(minPriceQ, 50.0);
      var minVol := QueryNumber(minVolQ, 0.0);
      var markets := GetKrwMarkets(now, fetchedMarkets);
      top := SortedPrefix(WithoutCaution(markets), TradeValueKey, 60);
      forall i | 0 <= i < |top| ensures IsKrw(top[i]) {
        assert top[i] in multiset(top);
        assert top[i] in WithoutCaution(markets);
      }
      out := Candidates(top, now, minPrice, minVol, fetchCandles, indicators);
      CandidatesFromFits(top, MarketsEntries(old(entries), now, fetchedMarkets), now, minPrice, minVol, fetchCandles, indicators);
      items := SortedPrefix(out, ScoreKey, limit);
      TopQualify(items, out, limit, minPrice);
    }
  }

  /** `(rows || []).slice().reverse()`. */
  function Reverse<T>(s: seq<T>): (r: seq<T>)
    ensures |r| == |s| && forall i :: 0 <= i < |s| ==> r[i] == s[|s| - 1 - i]
  {
    if s == [] then [] else Reverse(s[1..]) + [s[0]]
  }
}
