/** The DEX router: the base-price table, best-quote selection over the candidate quotes and the
    settlement reference format. The random numbers a quote draws and the
    random UUID behind a settlement reference arrive as inputs. */
module DexRouter {
  import opened OrderTypes

  /** Base price of the known mints. */
  const BasePrices: map<string, real> := map["SOL" := 100.0, "USDC" := 1.0, "BONK" := 0.00002]

  /** Base price of every other mint. */
  const DefaultBasePrice: real := 5.0

  /** `getBasePrice`: the table value, and the default for a mint the table does not list. */
  function BasePrice(mint: string): (p: real)
    ensures p > 0.0
    ensures mint in BasePrices ==> p == BasePrices[mint]
    ensures p == DefaultBasePrice <==> mint !in BasePrices
  {
    if mint in BasePrices then BasePrices[mint] else DefaultBasePrice
  }

  /** Names every plain JavaScript object inherits from `Object.prototype`. */
  const InheritedKeys: set<string> := {
    "constructor", "hasOwnProperty", "isPrototypeOf", "propertyIsEnumerable", "toString",
    "toLocaleString", "valueOf", "__proto__", "__defineGetter__", "__defineSetter__",
    "__lookupGetter__", "__lookupSetter__"
  }

  /** What indexing the object literal of base prices yields. */
  datatype Lookup = Price(value: real) | InheritedMember(name: string)

  /** `basePrices[baseMint] ?? 5` as written: indexing an object literal also finds the members
      it inherits, which are functions or objects, never null, so `??` does not replace them. */
  function BasePriceAsWritten(mint: string): (r: Lookup)
    ensures r.InheritedMember? <==> mint in InheritedKeys
    ensures mint !in InheritedKeys ==> r == Price(BasePrice(mint))
  {
    if mint in BasePrices then Price(BasePrices[mint])
    else if mint in InheritedKeys then InheritedMember(mint)
    else Price(DefaultBasePrice)
  }

  /** A mint named "constructor" gets no number from the table as written, where the default
      of 5 is evidently intended. */
  lemma ConstructorMintHasNoPrice()
    ensures BasePriceAsWritten("constructor").InheritedMember?
    ensures BasePrice("constructor") == DefaultBasePrice
  {
  }

  /** Index of the quote kept by `quotes.reduce((prev, cur) => cur.price > prev.price ? cur : prev)`:
      a left fold that replaces the running best only on a strictly higher price. */
  function BestIndex(quotes: seq<Quote>): (b: nat)
    requires |quotes| > 0
    ensures b < |quotes|
    ensures forall i :: 0 <= i < |quotes| ==> quotes[i].price <= quotes[b].price
    ensures forall i :: 0 <= i < b ==> quotes[i].price < quotes[b].price
  {
    if |quotes| == 1 then 0
    else
      var prev := BestIndex(quotes[..|quotes| - 1]);
      if quotes[|quotes| - 1].price > quotes[prev].price then |quotes| - 1 else prev
  }

  /** Lower-case hexadecimal digit. */
  predicate IsHexDigit(c: char) {
    '0' <= c <= '9' || 'a' <= c <= 'f'
  }

  predicate IsHex(s: string) {
    forall i :: 0 <= i < |s| ==> IsHexDigit(s[i])
  }

  /** A random UUID: five groups of hexadecimal digits. */
  datatype Uuid = Uuid(g1: string, g2: string, g3: string, g4: string, g5: string)

  /** The groups have 8, 4, 4, 4 and 12 lower-case hex digits, as `crypto.randomUUID` produces. */
  predicate WellFormed(u: Uuid) {
    && |u.g1| == 8 && |u.g2| == 4 && |u.g3| == 4 && |u.g4| == 4 && |u.g5| == 12
    && IsHex(u.g1) && IsHex(u.g2) && IsHex(u.g3) && IsHex(u.g4) && IsHex(u.g5)
  }

  /** The canonical text of a UUID: its groups joined by dashes. */
  function UuidText(u: Uuid): string {
    u.g1 + "-" + u.g2 + "-" + u.g3 + "-" + u.g4 + "-" + u.g5
  }

  /** `s.replace(/-/g, '')` */
  function StripDashes(s: string): (r: string)
    ensures |r| <= |s|
    ensures forall i :: 0 <= i < |r| ==> r[i] != '-'
  {
    if s == [] then [] else (if s[0] == '-' then [] else [s[0]]) + StripDashes(s[1..])
  }

  lemma {:induction false} StripDashesAppend(a: string, b: string)
    ensures StripDashes(a + b) == StripDashes(a) + StripDashes(b)
  {
    if a == [] {
      assert a + b == b;
    } else {
      assert (a + b)[1..] == a[1..] + b;
      StripDashesAppend(a[1..], b);
    }
  }

  lemma {:induction false} StripDashesOfHex(s: string)
    requires IsHex(s)
    ensures StripDashes(s) == s
  {
    if s != [] {
      StripDashesOfHex(s[1..]);
    }
  }

  /** `randomTxHash`: "0x" followed by the dash-less UUID text. */
  function TxHash(u: Uuid): (r: string)
    ensures |r| >= 2 && r[..2] == "0x"
    ensures forall i :: 2 <= i < |r| ==> r[i] != '-'
  {
    "0x" + StripDashes(UuidText(u))
  }

  /** A settlement reference is "0x" and 32 lower-case hex digits. */
  lemma TxHashFormat(u: Uuid)
    requires WellFormed(u)
    ensures |TxHash(u)| == 34
    ensures TxHash(u)[..2] == "0x"
    ensures IsHex(TxHash(u)[2..])
  {
    var hex := u.g1 + u.g2 + u.g3 + u.g4 + u.g5;
    StripUuidText(u);
    assert TxHash(u) == "0x" + hex;
    assert TxHash(u)[2..] == hex;
    forall i | 0 <= i < |hex|
      ensures IsHexDigit(hex[i])
    {
      if i < 8 {
        assert hex[i] == u.g1[i];
      } else if i < 12 {
        assert hex[i] == u.g2[i - 8];
      } else if i < 16 {
        assert hex[i] == u.g3[i - 12];
      } else if i < 20 {
        assert hex[i] == u.g4[i - 16];
      } else {
        assert hex[i] == u.g5[i - 20];
      }
    }
  }

  /** Stripping the dashes of a UUID's text leaves its groups side by side. */
  lemma StripUuidText(u: Uuid)
    requires WellFormed(u)
    ensures StripDashes(UuidText(u)) == u.g1 + u.g2 + u.g3 + u.g4 + u.g5
  {
    var p1 := u.g1 + "-";
    var p2 := p1 + u.g2 + "-";
    var p3 := p2 + u.g3 + "-";
    var p4 := p3 + u.g4 + "-";
    StripDashesOfHex(u.g1);
    StripDashesOfHex(u.g2);
    StripDashesOfHex(u.g3);
    StripDashesOfHex(u.g4);
    StripDashesOfHex(u.g5);
    assert StripDashes("-") == [];
    StripDashesAppend(u.g1, "-");
    assert StripDashes(p1) == u.g1;
    StripDashesAppend(p1, u.g2);
    StripDashesAppend(p1 + u.g2, "-");
    assert StripDashes(p2) == u.g1 + u.g2;
    StripDashesAppend(p2, u.g3);
    StripDashesAppend(p2 + u.g3, "-");
    assert StripDashes(p3) == u.g1 + u.g2 + u.g3;
    StripDashesAppend(p3, u.g4);
    StripDashesAppend(p3 + u.g4, "-");
    assert StripDashes(p4) == u.g1 + u.g2 + u.g3 + u.g4;
    StripDashesAppend(p4, u.g5);
    assert UuidText(u) == p4 + u.g5;
  }

  /** The three `Math.random()` values one simulated quote draws, in the order drawn. */
  datatype Draw = Draw(variation: real, direction: real, liquidity: real)

  /** `Math.random()` returns a number in [0, 1). */
  predicate InUnitInterval(d: Draw) {
    0.0 <= d.variation < 1.0 && 0.0 <= d.direction < 1.0 && 0.0 <= d.liquidity < 1.0
  }

  /** The arithmetic behind the bounds of `SimulateQuote`: a price moved by a fraction `v` of
      at most `m` stays within that fraction of the base price, on the side `direction` says. */
  lemma PriceBounds(basePrice: real, v: real, m: real, direction: real)
    requires basePrice > 0.0 && 0.0 <= v <= m
    requires direction == 1.0 || direction == -1.0
    ensures direction == 1.0 ==> basePrice <= basePrice * (1.0 + v * direction) <= basePrice * (1.0 + m)
    ensures direction == -1.0 ==> basePrice * (1.0 - m) <= basePrice * (1.0 + v * direction) <= basePrice
  {
    assert basePrice * (1.0 + v * direction) == basePrice + direction * (basePrice * v);
    assert basePrice * (1.0 + m) == basePrice + basePrice * m;
    assert basePrice * (1.0 - m) == basePrice - basePrice * m;
    assert 0.0 <= basePrice * v <= basePrice * m;
  }

  /** Liquidity drawn with `r` in [0, 1) lies between one and two times a positive amount. */
  lemma LiquidityBounds(amount: real, r: real)
    requires amount > 0.0 && 0.0 <= r < 1.0
    ensures amount <= amount * (1.0 + r) < 2.0 * amount
  {
    assert amount * (1.0 + r) == amount + amount * r;
    assert 0.0 <= amount * r < amount;
  }

  /** The bounds of `SimulateQuote` for draws in [0, 1). */
  lemma DrawBounds(basePrice: real, variationBps: nat, d: Draw, amount: real, price: real, liquidity: real)
    requires basePrice > 0.0
    requires price == basePrice * (1.0 + (d.variation * variationBps as real) / 10000.0 * (if d.direction > 0.5 then 1.0 else -1.0))
    requires liquidity == amount * (1.0 + d.liquidity)
    ensures var m := variationBps as real / 10000.0;
            && (InUnitInterval(d) && d.direction > 0.5 ==> basePrice <= price <= basePrice * (1.0 + m))
            && (InUnitInterval(d) && d.direction <= 0.5 ==> basePrice * (1.0 - m) <= price <= basePrice)
            && (InUnitInterval(d) && amount > 0.0 ==> amount <= liquidity < 2.0 * amount)
  {
    if InUnitInterval(d) {
      var v := (d.variation * variationBps as real) / 10000.0;
      assert 0.0 <= v <= variationBps as real / 10000.0 by {
        assert d.variation * variationBps as real <= variationBps as real;
      }
      PriceBounds(basePrice, v, variationBps as real / 10000.0, if d.direction > 0.5 then 1.0 else -1.0);
      if amount > 0.0 {
        LiquidityBounds(amount, d.liquidity);
      }
    }
  }

  /** `simulateQuote`: the base price moved up (when the second draw exceeds one half) or down by
      a fraction of at most `variationBps` basis points; liquidity between one and two times the
      amount. */
  function SimulateQuote(venue: Venue, baseMint: string, amount: real, variationBps: nat, d: Draw): (q: Quote)
    ensures q.venue == venue
    ensures InUnitInterval(d) && d.direction > 0.5 ==>
      BasePrice(baseMint) <= q.price <= BasePrice(baseMint) * (1.0 + variationBps as real / 10000.0)
    ensures InUnitInterval(d) && d.direction <= 0.5 ==>
      BasePrice(baseMint) * (1.0 - variationBps as real / 10000.0) <= q.price <= BasePrice(baseMint)
    ensures InUnitInterval(d) && amount > 0.0 ==> amount <= q.liquidity < 2.0 * amount
  {
    var basePrice := BasePrice(baseMint);
    var variation := (d.variation * variationBps as real) / 10000.0;
    var direction := if d.direction > 0.5 then 1.0 else -1.0;
    var price := basePrice * (1.0 + variation * direction);
    var liquidity := amount * (1.0 + d.liquidity);
    DrawBounds(basePrice, variationBps, d, amount, price, liquidity);
    Quote(venue, price, liquidity)
  }

  /** The two candidate quotes, Raydium first. */
  function Quotes(baseMint: string, amount: real, variationBps: nat, raydium: Draw, meteora: Draw): seq<Quote> {
    [SimulateQuote(Raydium, baseMint, amount, variationBps, raydium),
     SimulateQuote(Meteora, baseMint, amount, variationBps, meteora)]
  }

  /** `getBestRoute` on the given draws: both quotes, Raydium then Meteora; the venue and price
      of the same quote, one whose price is the highest, Raydium on a tie; a fresh settlement
      reference. */
  function GetBestRoute(baseMint: string, amount: real, variationBps: nat, raydium: Draw, meteora: Draw, uuid: Uuid)
    : (r: Route)
    ensures r.quotes == Quotes(baseMint, amount, variationBps, raydium, meteora)
    ensures r.venue == Raydium ==> r.price == r.quotes[0].price
    ensures r.venue == Meteora ==> r.price == r.quotes[1].price
    ensures r.price >= r.quotes[0].price && r.price >= r.quotes[1].price
    ensures r.quotes[0].price >= r.quotes[1].price ==> r.venue == Raydium
    ensures r.txHash == TxHash(uuid)
  {
    var quotes := Quotes(baseMint, amount, variationBps, raydium, meteora);
    var best := quotes[BestIndex(quotes)];
    Route(best.venue, best.price, quotes, TxHash(uuid))
  }
}
