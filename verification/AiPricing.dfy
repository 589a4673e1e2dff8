/** Cost and input estimates of internal/aiqa/runner.go, computed inside 64-bit integers. */
module AiPricing {

  newtype int64 = x: int | -0x8000_0000_0000_0000 <= x <= 0x7fff_ffff_ffff_ffff

  const MAX: int := 0x7fff_ffff_ffff_ffff

  const MILLION: int64 := 1000000

  /** The least number of whole units that covers n / d. */
  function CeilDiv(n: nat, d: nat): (c: nat)
    requires d > 0
    ensures c * d >= n && (c > 0 ==> (c - 1) * d < n)
  {
    DivisionBounds(n + d - 1, d);
    (n + d - 1) / d
  }

  lemma {:induction false} DivisionBounds(n: nat, d: nat)
    requires d > 0
    ensures (n / d) * d <= n < (n / d) * d + d
  {
  }

  function Capped(n: nat): nat {
    if n <= MAX then n else MAX
  }

  /** Micro-dollars for `tokens` tokens at `price` micro-dollars per million, rounded up. */
  function ExactCost(tokens: int, price: int): nat {
    if tokens <= 0 || price <= 0 then 0 else CeilDiv(Product(tokens, price), 1000000)
  }

  /** The least whole number of micro-dollars that pays for the tokens; nothing for no tokens or no price. */
  lemma {:induction false} CostMeans(tokens: int, price: int, cost: nat)
    ensures tokens <= 0 || price <= 0 ==> ExactCost(tokens, price) == 0
    ensures tokens > 0 && price > 0 ==>
              (cost == ExactCost(tokens, price) <==>
               cost * 1_000_000 >= tokens * price && (cost - 1) * 1_000_000 < tokens * price)
    ensures Capped(cost) == if cost <= 9_223_372_036_854_775_807 then cost else 9_223_372_036_854_775_807
  {
    if tokens > 0 && price > 0 {
      if cost * 1_000_000 >= tokens * price && (cost - 1) * 1_000_000 < tokens * price {
        CeilDivUnique(Product(tokens, price), 1_000_000, cost);
      }
    }
  }

  function Product(a: int, b: int): nat
    requires a > 0 && b > 0
  {
    assert a * b > 0;
    a * b
  }

  lemma {:induction false} CeilDivUnique(n: nat, d: nat, c: nat)
    requires d > 0 && c * d >= n && (c > 0 ==> (c - 1) * d < n)
    ensures c == CeilDiv(n, d)
  {
    var e := CeilDiv(n, d);
    if c < e {
      Monotone(c, e - 1, d);
    } else if e < c {
      Monotone(e, c - 1, d);
    }
  }

  lemma {:induction false} Monotone(a: nat, b: nat, d: nat)
    requires a <= b
    ensures a * d <= b * d
  {
  }

  /** The split the code computes: whole millions, then the two cross terms. */
  lemma {:induction false} CostSplits(tokens: nat, price: nat, whole: nat, rest: nat, millions: nat, remainder: nat)
    requires tokens > 0 && price > 0
    requires tokens == whole * 1000000 + rest && price == millions * 1000000 + remainder
    ensures ExactCost(tokens, price) == whole * price + rest * millions + CeilDiv(rest * remainder, 1000000)
  {
    var small := rest * remainder;
    var units := whole * price + rest * millions;
    var c := CeilDiv(small, 1000000);
    assert tokens * price == units * 1000000 + small by {
      assert tokens * price == whole * 1000000 * price + rest * price;
      assert rest * price == rest * (millions * 1000000) + rest * remainder;
      assert whole * 1000000 * price == whole * price * 1000000;
      assert rest * (millions * 1000000) == rest * millions * 1000000;
    }
    assert (units + c) * 1000000 == units * 1000000 + c * 1000000;
    if units + c > 0 {
      assert (units + c - 1) * 1000000 == units * 1000000 + (c - 1) * 1000000;
    }
    CeilDivUnique(tokens * price, 1000000, units + c);
  }

  lemma {:induction false} QuotientTest(whole: nat, price: nat)
    requires price > 0
    ensures whole > MAX / price <==> whole * price > MAX
  {
    var q := MAX / price;
    assert q * price <= MAX < (q + 1) * price;
    if whole > q {
      Monotone(q + 1, whole, price);
    } else {
      Monotone(whole, q, price);
    }
  }

  lemma {:induction false} CrossTermsFit(rest: nat, millions: nat, remainder: nat)
    requires rest < 1000000 && remainder < 1000000 && millions <= 9223372036854
    ensures rest * millions <= MAX && rest * remainder <= 999998000001
  {
    Monotone(rest, 999999, millions);
    assert 999999 * millions <= 999999 * 9223372036854;
    Monotone(rest, 999999, remainder);
    assert 999999 * remainder <= 999999 * 999999;
  }

  function Total(parts: seq<int64>, n: nat): int
    requires n <= |parts|
  {
    if n == 0 then 0 else Total(parts, n - 1) + parts[n - 1] as int
  }

  /** The capped running sum at the end of tokenCost. */
  method AddCapped(start: int64, parts: seq<int64>) returns (total: int64)
    requires start >= 0 && forall i :: 0 <= i < |parts| ==> parts[i] >= 0
    ensures total as int == if start as int + Total(parts, |parts|) <= MAX then start as int + Total(parts, |parts|)
        else MAX
  {
    total := start;
    for i := 0 to |parts|
      invariant total >= 0 && total as int == start as int + Total(parts, i)
    {
      TotalGrows(parts, i + 1, |parts|);
      if parts[i] > 0x7fff_ffff_ffff_ffff - total {
        return 0x7fff_ffff_ffff_ffff;
      }
      total := total + parts[i];
    }
  }

  lemma {:induction false} TotalGrows(parts: seq<int64>, n: nat, m: nat)
    requires n <= m <= |parts| && forall i :: 0 <= i < |parts| ==> parts[i] >= 0
    ensures Total(parts, n) <= Total(parts, m)
    decreases m
  {
    if n < m {
      TotalGrows(parts, n, m - 1);
    }
  }

  /** The two cross terms, computed without overflow. */
  method CrossTerms(rest: int64, millions: int64, remainder: int64) returns (parts: seq<int64>)
    requires 0 <= rest < 1000000 && 0 <= remainder < 1000000 && 0 <= millions <= 9223372036854
    ensures |parts| == 2 && parts[0] >= 0 && parts[1] >= 0
    ensures Total(parts, 2) == rest as int * millions as int + CeilDiv(rest as int * remainder as int, 1000000)
  {
    CrossTermsFit(rest as int, millions as int, remainder as int);
    var a, b := rest * millions, (rest * remainder + MILLION - 1) / MILLION;
    parts := [a, b];
    assert Total(parts, 2) == Total(parts, 1) + b as int && Total(parts, 1) == Total(parts, 0) + a as int;
  }

  /** The price of the whole millions, if it fits. */
  method WholeCost(whole: int64, price: int64) returns (fits: bool, cost: int64)
    requires whole >= 0 && price > 0
    ensures fits <==> whole as int * price as int <= MAX
    ensures fits ==> cost >= 0 && cost as int == whole as int * price as int
  {
    QuotientTest(whole as int, price as int);
    if whole > 0x7fff_ffff_ffff_ffff / price {
      return false, 0;
    }
    fits, cost := true, whole * price;
  }

  /** tokenCost: the exact cost rounded up, capped at the largest int64; no intermediate overflows. */
  method TokenCost(tokens: int64, price: int64) returns (cost: int64)
    ensures cost as int == Capped(ExactCost(tokens as int, price as int))
  {
    if tokens <= 0 || price <= 0 {
      return 0;
    }
    var whole, rest := tokens / MILLION, tokens % MILLION;
    var millions, remainder := price / MILLION, price % MILLION;
    var parts := CrossTerms(rest, millions, remainder);
    var fits, wholeCost := WholeCost(whole, price);
    ghost var exact := ExactCost(tokens as int, price as int);
    assert exact == whole as int * price as int + Total(parts, 2) by {
      CostSplits(tokens as int, price as int, whole as int, rest as int, millions as int, remainder as int);
    }
    TotalGrows(parts, 0, 2);
    if !fits {
      return 0x7fff_ffff_ffff_ffff;
    }
    cost := AddCapped(wholeCost, parts);
  }

  /** The cost of a run: input and output priced apart, their sum capped. */
  method RunCost(input: int64, inputPrice: int64, output: int64, outputPrice: int64) returns (cost: int64)
    ensures cost as int ==
            Capped(ExactCost(input as int, inputPrice as int) + ExactCost(output as int, outputPrice as int))
  {
    cost := TokenCost(input, inputPrice);
    var outputCost := TokenCost(output, outputPrice);
    if outputCost > 0x7fff_ffff_ffff_ffff - cost {
      cost := 0x7fff_ffff_ffff_ffff;
    } else {
      cost := cost + outputCost;
    }
  }

  function TextBytes(turns: seq<string>, n: nat): nat
    requires n <= |turns|
  {
    if n == 0 then 0 else TextBytes(turns, n - 1) + |turns[n - 1]|
  }

  lemma {:induction false} TextBytesGrow(turns: seq<string>, n: nat, m: nat)
    requires n <= m <= |turns|
    ensures TextBytes(turns, n) <= TextBytes(turns, m)
    decreases m
  {
    if n < m {
      TextBytesGrow(turns, n, m - 1);
    }
  }

  /** estimateGatewayInput: prompt, turns and images, capped; lengths are what Go can hold in memory. */
  method EstimateInput(systemPrompt: string, turns: seq<string>, images: nat, imageQuota: int64) returns (total: int64)
    requires |systemPrompt| <= MAX && images <= MAX && forall i :: 0 <= i < |turns| ==> |turns[i]| <= MAX
    ensures total as int ==
            Capped(|systemPrompt| + TextBytes(turns, |turns|) + (if imageQuota > 0 then images * imageQuota as int
                else 0))
  {
    total := |systemPrompt| as int64;
    for i := 0 to |turns|
      invariant total as int == |systemPrompt| + TextBytes(turns, i)
    {
      var textBytes := |turns[i]| as int64;
      TextBytesGrow(turns, i + 1, |turns|);
      if textBytes > 0x7fff_ffff_ffff_ffff - total {
        return 0x7fff_ffff_ffff_ffff;
      }
      total := total + textBytes;
    }
    if imageQuota <= 0 || images == 0 {
      return;
    }
    var room := 0x7fff_ffff_ffff_ffff - total;
    RoomTest(images, imageQuota as int, room as int);
    if images as int64 > room / imageQuota {
      return 0x7fff_ffff_ffff_ffff;
    }
    total := total + images as int64 * imageQuota;
  }

  lemma {:induction false} RoomTest(images: nat, quota: int, room: nat)
    requires quota > 0
    ensures images > room / quota <==> images * quota > room
  {
    var q := room / quota;
    DivisionBounds(room, quota);
    assert (q + 1) * quota == q * quota + quota;
    if images > q {
      Monotone(q + 1, images, quota);
    } else {
      Monotone(images, q, quota);
    }
  }
}
