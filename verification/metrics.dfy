/**
  The exact arithmetic and list logic of the per-token metrics: decimal scaling of raw
  balances, the circulating-supply formula, the holder-list scan, the two concentration
  figures and the LP-derived market cap. Python floats are modelled as exact reals.
 */
module Metrics {
  import opened Wrappers

  // ---------------------------------------------------------------------------
  // Scaling and truncation
  // ---------------------------------------------------------------------------

  /** 10 ** n, the divisor that turns a raw token amount into whole tokens. */
  function Pow10(n: nat): (r: nat)
    ensures r >= 1
    ensures n > 0 ==> r >= 10
  {
    if n == 0 then 1 else 10 * Pow10(n - 1)
  }

  /** int(raw) / (10 ** decimal): a raw balance in whole tokens (true division). */
  function Scale(raw: int, decimal: nat): (r: real)
    ensures r * Pow10(decimal) as real == raw as real
    ensures raw >= 0 ==> r >= 0.0
  {
    raw as real / Pow10(decimal) as real
  }

  /** Scaling by the token's decimals preserves the order of raw balances. */
  lemma ScaleMonotone(raw1: int, raw2: int, decimal: nat)
    requires raw1 <= raw2
    ensures Scale(raw1, decimal) <= Scale(raw2, decimal)
  {
  }

  /** Python's int() on a float: truncation toward zero. */
  function TruncReal(x: real): (r: int)
    ensures 0.0 <= x ==> 0 <= r && r as real <= x < r as real + 1.0
    ensures x < 0.0 ==> r <= 0 && r as real - 1.0 < x <= r as real
  {
    if x >= 0.0 then x.Floor else -((-x).Floor)
  }

  /** Truncation toward zero is monotone. */
  lemma TruncRealMonotone(x: real, y: real)
    requires x <= y
    ensures TruncReal(x) <= TruncReal(y)
  {
  }

  /** If r <= n / d over the reals (d > 0), then r * d <= n over the integers. */
  lemma BelowQuotient(n: int, d: int, r: int)
    requires d > 0
    ensures r as real <= n as real / d as real ==> r * d <= n
    ensures r as real < n as real / d as real ==> r * d < n
    ensures n as real / d as real <= r as real ==> n <= r * d
    ensures n as real / d as real < r as real ==> n < r * d
  {
  }

  /**
    int((float(total_supply) - float(burn_balance)) / 10 ** decimal).
    Over exact arithmetic this is the integer quotient of total - burn by 10^decimal,
    truncated toward zero: the bounds below pin it down uniquely.
   */
  function CirculatingSupply(total: int, burn: int, decimal: nat): (r: int)
    ensures total == burn ==> r == 0
    ensures total >= burn ==> 0 <= r && r * Pow10(decimal) <= total - burn < (r + 1) * Pow10(decimal)
    ensures total <= burn ==> r <= 0 && (r - 1) * Pow10(decimal) < total - burn <= r * Pow10(decimal)
  {
    var n, d := total - burn, Pow10(decimal);
    var r := TruncReal(n as real / d as real);
    BelowQuotient(n, d, r);
    BelowQuotient(n, d, r + 1);
    BelowQuotient(n, d, r - 1);
    assert n >= 0 ==> n as real / d as real >= 0.0;
    assert n <= 0 ==> n as real / d as real <= 0.0;
    r
  }

  /** More raw supply (or less burned) never yields less circulating supply. */
  lemma CirculatingSupplyMonotone(total1: int, total2: int, burn: int, decimal: nat)
    requires total1 <= total2
    ensures CirculatingSupply(total1, burn, decimal) <= CirculatingSupply(total2, burn, decimal)
  {
    var p := Pow10(decimal);
    var d := (total1 - burn) as real / p as real;
    var e := (total2 - burn) as real / p as real;
    assert e - d == (total2 - total1) as real / p as real;
    TruncRealMonotone(d, e);
  }

  // ---------------------------------------------------------------------------
  // The holder list
  // ---------------------------------------------------------------------------

  /**
    One holder-change item: its token_holder and its raw next_balance. None stands for a
    missing token_holder key, or for a next_balance that int() cannot parse (or a missing key).
   */
  datatype HolderItem = HolderItem(tokenHolder: Option<string>, nextBalance: Option<int>)

  /** The burn address and the LP address are dropped from the holder list. */
  predicate Excluded(item: HolderItem, burn: string, lp: string)
    ensures Excluded(item, burn, lp) ==> item.tokenHolder.Some?
  {
    item.tokenHolder == Some(burn) || item.tokenHolder == Some(lp)
  }

  /** An item the loop gets past without raising: its holder is readable, and if kept, its balance parses. */
  predicate Readable(item: HolderItem, burn: string, lp: string)
  {
    item.tokenHolder.Some? && (Excluded(item, burn, lp) || item.nextBalance.Some?)
  }

  /**
    The outcome of scanning the items in response order: the scaled balances appended,
    and whether the scan reached the end (false: a missing holder or an unparsable balance raised).
   */
  datatype Scan = Scan(appended: seq<real>, complete: bool)

  /**
    The holder-list loop: every item whose holder is neither the burn nor the LP address
    contributes its scaled next_balance, in order; the first item without a holder, or kept
    with a balance that does not parse, stops the scan, keeping what was appended before it.
   */
  function Collect(items: seq<HolderItem>, burn: string, lp: string, decimal: nat): (r: Scan)
    ensures |r.appended| <= |items|
    ensures r.complete <==> forall i :: 0 <= i < |items| ==> Readable(items[i], burn, lp)
    ensures items == [] ==> r == Scan([], true)
    decreases |items|
  {
    if items == [] then Scan([], true)
    else if items[0].tokenHolder.None? then Scan([], false)
    else if Excluded(items[0], burn, lp) then Collect(items[1..], burn, lp, decimal)
    else match items[0].nextBalance
      case None => Scan([], false)
      case Some(raw) =>
        var rest := Collect(items[1..], burn, lp, decimal);
        Scan([Scale(raw, decimal)] + rest.appended, rest.complete)
  }

  /** Scanning a concatenation is scanning the first part, then (if it completed) the second. */
  lemma {:induction false} CollectAppend(a: seq<HolderItem>, b: seq<HolderItem>, burn: string, lp: string, decimal: nat)
    ensures Collect(a + b, burn, lp, decimal) ==
      if Collect(a, burn, lp, decimal).complete
      then Scan(Collect(a, burn, lp, decimal).appended + Collect(b, burn, lp, decimal).appended,
                Collect(b, burn, lp, decimal).complete)
      else Collect(a, burn, lp, decimal)
    decreases |a|
  {
    if a == [] {
      assert a + b == b;
    } else {
      assert (a + b)[0] == a[0];
      assert (a + b)[1..] == a[1..] + b;
      CollectAppend(a[1..], b, burn, lp, decimal);
      if Readable(a[0], burn, lp) && !Excluded(a[0], burn, lp) {
        var ra := Collect(a[1..], burn, lp, decimal).appended;
        var rb := Collect(b, burn, lp, decimal).appended;
        assert [Scale(a[0].nextBalance.value, decimal)] + (ra + rb)
            == ([Scale(a[0].nextBalance.value, decimal)] + ra) + rb;
      }
    }
  }

  /** An excluded item contributes nothing, wherever it stands in the response. */
  lemma CollectSkipsExcluded(a: seq<HolderItem>, x: HolderItem, b: seq<HolderItem>, burn: string, lp: string, decimal: nat)
    requires Excluded(x, burn, lp)
    ensures Collect(a + [x] + b, burn, lp, decimal) == Collect(a + b, burn, lp, decimal)
  {
    CollectAppend(a, [x] + b, burn, lp, decimal);
    assert a + [x] + b == a + ([x] + b);
    assert ([x] + b)[1..] == b;
    CollectAppend(a, b, burn, lp, decimal);
  }

  /** The items the holder list is built from: those not held by the burn or LP address, in response order. */
  function Kept(items: seq<HolderItem>, burn: string, lp: string): (k: seq<HolderItem>)
    ensures |k| <= |items|
    ensures forall x :: x in k <==> x in items && !Excluded(x, burn, lp)
    decreases |items|
  {
    if items == [] then []
    else if Excluded(items[0], burn, lp) then Kept(items[1..], burn, lp)
    else [items[0]] + Kept(items[1..], burn, lp)
  }

  /** The scaled next_balance of each item, in order. */
  function Scaled(k: seq<HolderItem>, decimal: nat): (r: seq<real>)
    requires forall x :: x in k ==> x.nextBalance.Some?
    ensures |r| == |k|
    ensures forall i :: 0 <= i < |k| ==> r[i] * Pow10(decimal) as real == k[i].nextBalance.value as real
    decreases |k|
  {
    if k == [] then [] else [Scale(k[0].nextBalance.value, decimal)] + Scaled(k[1..], decimal)
  }

  /**
    When every item is readable, the scan completes and appends exactly the scaled balances
    of the kept items: one value per kept item, in response order.
   */
  lemma {:induction false} CollectKeeps(items: seq<HolderItem>, burn: string, lp: string, decimal: nat)
    requires forall i :: 0 <= i < |items| ==> Readable(items[i], burn, lp)
    ensures forall x :: x in Kept(items, burn, lp) ==> x.nextBalance.Some?
    ensures Collect(items, burn, lp, decimal) == Scan(Scaled(Kept(items, burn, lp), decimal), true)
    decreases |items|
  {
    if items != [] {
      var tail := items[1..];
      assert forall i :: 0 <= i < |tail| ==> tail[i] == items[i + 1];
      CollectKeeps(tail, burn, lp, decimal);
      if !Excluded(items[0], burn, lp) {
        var k := [items[0]] + Kept(tail, burn, lp);
        assert k[1..] == Kept(tail, burn, lp);
      }
    }
  }

  /**
    When the scan stops early, it stopped at an item k it could not get past, and what it
    appended is exactly the complete scan of the items before k.
   */
  lemma {:induction false} CollectStopsAtFirstBadItem(items: seq<HolderItem>, burn: string, lp: string, decimal: nat)
    requires !Collect(items, burn, lp, decimal).complete
    ensures exists k :: (0 <= k < |items| && !Readable(items[k], burn, lp) &&
      Collect(items[..k], burn, lp, decimal).complete &&
      Collect(items, burn, lp, decimal).appended == Collect(items[..k], burn, lp, decimal).appended)
    decreases |items|
  {
    var k := 0;
    while k < |items| && Readable(items[k], burn, lp)
      invariant 0 <= k <= |items|
      invariant forall i :: 0 <= i < k ==> Readable(items[i], burn, lp)
    {
      k := k + 1;
    }
    var pre := items[..k];
    assert items[..|items|] == items;
    assert forall i :: 0 <= i < |pre| ==> pre[i] == items[i];
    CollectKeeps(pre, burn, lp, decimal);
    assert k == |items| ==> pre == items;
    assert k < |items|;
    assert items == pre + items[k..];
    CollectAppend(pre, items[k..], burn, lp, decimal);
    assert items[k..][0] == items[k];
  }

  /** With no excluded and no unreadable item, the list is every item's scaled balance, in order. */
  lemma {:induction false} CollectNoneExcluded(items: seq<HolderItem>, burn: string, lp: string, decimal: nat)
    requires forall i :: 0 <= i < |items| ==>
      items[i].tokenHolder.Some? && !Excluded(items[i], burn, lp) && items[i].nextBalance.Some?
    ensures Collect(items, burn, lp, decimal).complete
    ensures |Collect(items, burn, lp, decimal).appended| == |items|
    ensures forall i :: 0 <= i < |items| ==>
      Collect(items, burn, lp, decimal).appended[i] == Scale(items[i].nextBalance.value, decimal)
    decreases |items|
  {
    if items != [] {
      var tail := items[1..];
      assert forall i :: 0 <= i < |tail| ==> tail[i] == items[i + 1];
      CollectNoneExcluded(tail, burn, lp, decimal);
    }
  }

  /** A response made only of burn and LP items yields an empty list. */
  lemma {:induction false} CollectAllExcluded(items: seq<HolderItem>, burn: string, lp: string, decimal: nat)
    requires forall i :: 0 <= i < |items| ==> Excluded(items[i], burn, lp)
    ensures Collect(items, burn, lp, decimal) == Scan([], true)
    decreases |items|
  {
    if items != [] {
      var tail := items[1..];
      assert forall i :: 0 <= i < |tail| ==> tail[i] == items[i + 1];
      CollectAllExcluded(tail, burn, lp, decimal);
    }
  }

  // ---------------------------------------------------------------------------
  // Concentration figures
  // ---------------------------------------------------------------------------

  /** len([x for x in lst if x >= threshold]). */
  function CountAtLeast(lst: seq<real>, threshold: real): (n: nat)
    ensures n <= |lst|
    decreases |lst|
  {
    if lst == [] then 0
    else CountAtLeast(lst[..|lst| - 1], threshold) + (if lst[|lst| - 1] >= threshold then 1 else 0)
  }

  /** The positions of the entries at or above the threshold. */
  ghost function IndicesAtLeast(lst: seq<real>, threshold: real): set<int>
  {
    set i | 0 <= i < |lst| && lst[i] >= threshold
  }

  /** The count equals the number of positions holding an entry at or above the threshold. */
  lemma {:induction false} CountAtLeastIsIndexCount(lst: seq<real>, threshold: real)
    ensures CountAtLeast(lst, threshold) == |IndicesAtLeast(lst, threshold)|
    decreases |lst|
  {
    if lst == [] {
      assert IndicesAtLeast(lst, threshold) == {};
    } else {
      var n := |lst| - 1;
      var init := lst[..n];
      CountAtLeastIsIndexCount(init, threshold);
      var s := IndicesAtLeast(init, threshold);
      assert n !in s;
      if lst[n] >= threshold {
        assert IndicesAtLeast(lst, threshold) == s + {n};
      } else {
        assert IndicesAtLeast(lst, threshold) == s;
      }
    }
  }

  /** The number of holders owning at least 1% of the circulating supply. */
  function WholeHolderCount(lst: seq<real>, circulatingSupply: int): (n: nat)
    ensures n <= |lst|
  {
    CountAtLeast(lst, circulatingSupply as real / 100.0)
  }

  /** sum(lst). */
  function Sum(lst: seq<real>): (total: real)
    decreases |lst|
  {
    if lst == [] then 0.0 else lst[0] + Sum(lst[1..])
  }

  lemma {:induction false} SumAppend(a: seq<real>, b: seq<real>)
    ensures Sum(a + b) == Sum(a) + Sum(b)
    decreases |a|
  {
    if a == [] {
      assert a + b == b;
    } else {
      assert (a + b)[1..] == a[1..] + b;
      SumAppend(a[1..], b);
    }
  }

  function Min(a: int, b: int): (m: int) { if a <= b then a else b }

  /**
    (sum(lst[:10]) / circulating_supply) * 100: the first ten entries by position
    (fewer when the list is shorter); a zero supply raises ZeroDivisionError.
   */
  function TopTenShare(lst: seq<real>, circulatingSupply: int): (r: Result<real>)
    ensures r.Err? <==> circulatingSupply == 0
    ensures r.Err? ==> r.fault == ZeroDivision
  {
    var top := lst[..Min(10, |lst|)];
    if circulatingSupply == 0 then Err(ZeroDivision)
    else Ok(Sum(top) / circulatingSupply as real * 100.0)
  }

  /** A list of at most ten entries is summed whole. */
  lemma TopTenShareShortList(lst: seq<real>, circulatingSupply: int)
    requires |lst| <= 10 && circulatingSupply != 0
    ensures TopTenShare(lst, circulatingSupply) == Ok(Sum(lst) / circulatingSupply as real * 100.0)
  {
    assert lst[..|lst|] == lst;
  }

  /** Entries after the tenth never change the share, whatever their size. */
  lemma TopTenShareIgnoresTail(lst: seq<real>, tail: seq<real>, circulatingSupply: int)
    requires |lst| >= 10
    ensures TopTenShare(lst + tail, circulatingSupply) == TopTenShare(lst, circulatingSupply)
  {
    assert (lst + tail)[..10] == lst[..10];
  }

  /** A sum of non-negative entries is non-negative. */
  lemma {:induction false} SumNonNegative(lst: seq<real>)
    requires forall i :: 0 <= i < |lst| ==> lst[i] >= 0.0
    ensures Sum(lst) >= 0.0
    decreases |lst|
  {
    if lst != [] {
      SumNonNegative(lst[1..]);
    }
  }

  /** With non-negative balances and a positive supply, the share is non-negative. */
  lemma TopTenShareNonNegative(lst: seq<real>, circulatingSupply: int)
    requires forall i :: 0 <= i < |lst| ==> lst[i] >= 0.0
    requires circulatingSupply > 0
    ensures TopTenShare(lst, circulatingSupply).Ok? && TopTenShare(lst, circulatingSupply).value >= 0.0
  {
    var top := lst[..Min(10, |lst|)];
    SumNonNegative(top);
  }

  /** Ten entries summing to the whole supply give a share of exactly 100. */
  lemma TopTenShareFullSupply()
    ensures TopTenShare([40.0, 30.0, 20.0, 5.0, 5.0, 0.0, 0.0, 0.0, 0.0, 0.0], 100) == Ok(100.0)
  {
    var lst := [40.0, 30.0, 20.0, 5.0, 5.0, 0.0, 0.0, 0.0, 0.0, 0.0];
    assert lst[..10] == lst;
    assert Sum(lst) == 100.0;
  }

  /** A sum of zeros is zero. */
  lemma {:induction false} SumOfZeros(lst: seq<real>)
    requires forall i :: 0 <= i < |lst| ==> lst[i] == 0.0
    ensures Sum(lst) == 0.0
    decreases |lst|
  {
    if lst != [] {
      SumOfZeros(lst[1..]);
    }
  }

  /** "Top ten" is by position: an eleventh entry holding half the supply is not counted. */
  lemma TopTenShareIsPositional()
    ensures TopTenShare([0.0, 0.0, 0.0, 0.0, 0.0, 0.0, 0.0, 0.0, 0.0, 0.0, 50.0], 100) == Ok(0.0)
  {
    var lst := [0.0, 0.0, 0.0, 0.0, 0.0, 0.0, 0.0, 0.0, 0.0, 0.0, 50.0];
    var top := lst[..10];
    assert forall i :: 0 <= i < |top| ==> top[i] == 0.0;
    SumOfZeros(top);
  }

  /** Of [2, 1, 0.5] with a supply of 100, only 2 reaches the 1% threshold. */
  lemma WholeHolderCountExample()
    ensures WholeHolderCount([2.0, 1.0, 0.5], 100) == 2
  {
    var lst := [2.0, 1.0, 0.5];
    assert lst[..2] == [2.0, 1.0];
    assert [2.0, 1.0][..1] == [2.0];
    assert [2.0][..0] == [];
    assert CountAtLeast([2.0], 1.0) == 1;
    assert CountAtLeast([2.0, 1.0], 1.0) == 2;
  }

  /** The two figures holders_analysis computes. */
  datatype Concentration = Concentration(wholeHolders: nat, topTenPct: real)

  /**
    holders_analysis: the >= 1% count is computed first and cannot fail; the top-10 share
    then raises on a zero supply, which aborts the whole analysis.
   */
  function Analyse(lst: seq<real>, circulatingSupply: int): (r: Result<Concentration>)
    ensures r.Ok? <==> circulatingSupply != 0
    ensures r.Ok? ==> r.value.wholeHolders <= |lst|
  {
    match TopTenShare(lst, circulatingSupply)
    case Err(f) => Err(f)
    case Ok(pct) => Ok(Concentration(WholeHolderCount(lst, circulatingSupply), pct))
  }

  // ---------------------------------------------------------------------------
  // Market cap
  // ---------------------------------------------------------------------------

  /**
    circulating_supply * (balances[1] / balances[0]) * bnb_price, with balances taken by
    position: [0] is the token side, [1] the WBNB side. A short list raises IndexError,
    a zero token side ZeroDivisionError.
   */
  function MarketCap(circulatingSupply: int, balances: seq<real>, bnbPrice: real): (r: Result<real>)
    ensures r.Ok? <==> |balances| >= 2 && balances[0] != 0.0
    ensures |balances| < 2 ==> r == Err(IndexOutOfRange)
    ensures |balances| >= 2 && balances[0] == 0.0 ==> r == Err(ZeroDivision)
    ensures r.Ok? ==> r.value * balances[0] == circulatingSupply as real * balances[1] * bnbPrice
  {
    if |balances| < 2 then Err(IndexOutOfRange)
    else if balances[0] == 0.0 then Err(ZeroDivision)
    else
      var cap := circulatingSupply as real * (balances[1] / balances[0]) * bnbPrice;
      assert cap * balances[0] == circulatingSupply as real * balances[1] * bnbPrice by {
        assert (balances[1] / balances[0]) * balances[0] == balances[1];
      }
      Ok(cap)
  }

  /** With no circulating supply resolved (still 0), any computed market cap is 0. */
  lemma MarketCapZeroSupply(balances: seq<real>, bnbPrice: real)
    requires MarketCap(0, balances, bnbPrice).Ok?
    ensures MarketCap(0, balances, bnbPrice).value == 0.0
  {
  }

  /** The balances are read by position: swapping the two sides changes the market cap. */
  lemma MarketCapIsPositional()
    ensures MarketCap(1000, [100.0, 5.0], 2.0) == Ok(100.0)
    ensures MarketCap(1000, [5.0, 100.0], 2.0) == Ok(40000.0)
  {
  }
}
