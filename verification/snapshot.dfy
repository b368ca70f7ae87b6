/**
  The Token accumulator as a value: its fields, the provider responses each step consumes,
  one state transition per Token method, the failure-isolating pipeline and the record
  to_file writes. These functions are the specification the Token class is proved against.
 */
module Snapshot {
  import opened Wrappers
  import opened Metrics

  /** The six addresses a token is configured with. */
  datatype TokenConfig = TokenConfig(
    address: string,
    marketingWallet: string,
    rewardsContract: string,
    rewardedToken: string,
    burnAddress: string,
    lpAddress: string)

  /** Every field of a Token object. */
  datatype TokenState = TokenState(
    config: TokenConfig,
    now: real,
    holders: int,
    yesterdayHolders: int,
    transactions: int,
    marketingWalletValueUsd: real,
    distributedRewards: real,
    circulatingSupply: int,
    decimal: nat,
    holdersLst: seq<real>,
    bnbPrice: real,
    marketCap: real,
    blockNow: int,
    yesterdayBlock: int)

  /**
    The state Token.__init__ builds: every metric 0, the holder list empty. Its record is
    all zeros, and its analysis divides by the zero supply.
   */
  function Initial(config: TokenConfig, now: real): (s: TokenState)
    ensures s.config == config && s.now == now
    ensures ReportOf(s) == Report(config.address, 0, 0, 0, 0.0, 0.0, 0, 0.0)
    ensures Analyse(s.holdersLst, s.circulatingSupply) == Err(ZeroDivision)
  {
    TokenState(config, now, 0, 0, 0, 0.0, 0.0, 0, 0, [], 0.0, 0.0, 0, 0)
  }

  /** One page of holder changes: pagination.total_count and the items (None: missing). */
  datatype HolderPage = HolderPage(totalCount: int, items: Option<seq<HolderItem>>)

  /**
    An answer whose text is converted later: no answer (the call raised), an answer that
    float() cannot convert, or the converted value.
   */
  datatype Answer<T> = NoAnswer | Unparsable | Parsed(value: T)

  /**
    What the providers answer for this token, already extracted from their JSON; None is
    a failed request or a missing path. Lookups whose arguments come from the token's own
    fields are functions of those arguments.
   */
  datatype Provider = Provider(
    blockBefore: int -> Option<int>,                   // block closest before a unix time
    bnbPrice: Option<real>,                            // ethusd of the last BNB price
    totalSupply: Answer<int>,                          // raw total supply, converted at the supply line
    tokenDecimal: Option<nat>,                         // tokenDecimal of the earliest transfer
    burnBalance: Option<int>,                          // raw balance of the burn address (None: failed or unconvertible)
    lpBalances: Option<seq<real>>,                     // the LP address's balance values, in response order
    transactions: Option<int>,                         // unique transfer count
    holdersAt: int -> Option<int>,                     // total_count for the range [block, block]
    holderChanges: (int, int) -> Option<HolderPage>,   // holder changes for [from, to]
    distributedRewards: Option<real>,                  // sum of reward transfers
    marketingValueUsd: Option<real>)                   // coinpath amount in USD

  /** The state after one step, and whether the step returned without raising. */
  datatype StepResult = StepResult(state: TokenState, ok: bool)

  /**
    get_circulation_supply: the two block heights, the BNB price and the decimals are
    written as they arrive, and the first failing call aborts the rest. The total supply and
    the burn balance are only converted on the supply line: a total supply that does not
    convert, or a failed burn-balance lookup (swallowed, but leaving the balance unbound),
    makes that line raise after the decimals were written, and circulating_supply is not.
   */
  function SupplyStep(s: TokenState, p: Provider): (r: StepResult)
    ensures r.state == s.(blockNow := r.state.blockNow, yesterdayBlock := r.state.yesterdayBlock,
                          bnbPrice := r.state.bnbPrice, decimal := r.state.decimal,
                          circulatingSupply := r.state.circulatingSupply)
    ensures !r.ok ==> r.state.circulatingSupply == s.circulatingSupply
  {
    match p.blockBefore(TruncReal(s.now))
    case None => StepResult(s, false)
    case Some(blockNow) =>
      var s1 := s.(blockNow := blockNow);
      match p.blockBefore(TruncReal(s.now - 86400.0))
      case None => StepResult(s1, false)
      case Some(yesterdayBlock) =>
        var s2 := s1.(yesterdayBlock := yesterdayBlock);
        match p.bnbPrice
        case None => StepResult(s2, false)
        case Some(price) =>
          var s3 := s2.(bnbPrice := price);
          if p.totalSupply.NoAnswer? then StepResult(s3, false)
          else
            match p.tokenDecimal
            case None => StepResult(s3, false)
            case Some(decimal) =>
              var s4 := s3.(decimal := decimal);
              match (p.totalSupply, p.burnBalance)
              case (Parsed(total), Some(burn)) =>
                StepResult(s4.(circulatingSupply := CirculatingSupply(total, burn, decimal)), true)
              case _ => StepResult(s4, false)
  }

  /** get_lp_info: market_cap from whatever supply and price the state holds now. */
  function LpStep(s: TokenState, p: Provider): (r: StepResult)
    ensures r.state == s.(marketCap := r.state.marketCap)
    ensures !r.ok ==> r.state == s
  {
    match p.lpBalances
    case None => StepResult(s, false)
    case Some(balances) =>
      match MarketCap(s.circulatingSupply, balances, s.bnbPrice)
      case Err(_) => StepResult(s, false)
      case Ok(cap) => StepResult(s.(marketCap := cap), true)
  }

  /** get_transactions_number: store the count or fail. */
  function TransactionsStep(s: TokenState, p: Provider): (r: StepResult)
    ensures r.ok <==> p.transactions.Some?
    ensures r.state == s.(transactions := if r.ok then p.transactions.value else s.transactions)
  {
    match p.transactions
    case None => StepResult(s, false)
    case Some(n) => StepResult(s.(transactions := n), true)
  }

  /**
    get_holders_number: yesterday's count is written before the second query; the current
    count before the items are read; then the scan appends to the existing list.
   */
  function HoldersStep(s: TokenState, p: Provider): (r: StepResult)
    ensures r.state == s.(yesterdayHolders := r.state.yesterdayHolders, holders := r.state.holders,
                          holdersLst := r.state.holdersLst)
    ensures p.holdersAt(s.yesterdayBlock).None? ==> r == StepResult(s, false)
  {
    match p.holdersAt(s.yesterdayBlock)
    case None => StepResult(s, false)
    case Some(yesterday) =>
      var s1 := s.(yesterdayHolders := yesterday);
      match p.holderChanges(s.yesterdayBlock, s.blockNow)
      case None => StepResult(s1, false)
      case Some(page) =>
        var s2 := s1.(holders := page.totalCount);
        match page.items
        case None => StepResult(s2, false)
        case Some(items) =>
          var scan := Collect(items, s.config.burnAddress, s.config.lpAddress, s.decimal);
          StepResult(s2.(holdersLst := s.holdersLst + scan.appended), scan.complete)
  }

  /** get_distributed_rewards: store the sum or fail. */
  function RewardsStep(s: TokenState, p: Provider): (r: StepResult)
    ensures r.ok <==> p.distributedRewards.Some?
    ensures r.state == s.(distributedRewards := if r.ok then p.distributedRewards.value else s.distributedRewards)
  {
    match p.distributedRewards
    case None => StepResult(s, false)
    case Some(v) => StepResult(s.(distributedRewards := v), true)
  }

  /** get_marketing_wallet_value: store the USD value or fail. */
  function MarketingStep(s: TokenState, p: Provider): (r: StepResult)
    ensures r.ok <==> p.marketingValueUsd.Some?
    ensures r.state == s.(marketingWalletValueUsd := if r.ok then p.marketingValueUsd.value else s.marketingWalletValueUsd)
  {
    match p.marketingValueUsd
    case None => StepResult(s, false)
    case Some(v) => StepResult(s.(marketingWalletValueUsd := v), true)
  }

  /** The record to_file serialises. The concentration figures are not part of it. */
  datatype Report = Report(
    address: string,
    holders: int,
    holdersChange: int,
    transactions: int,
    marketingWalletUsd: real,
    distributedRewards: real,
    circulatingSupply: int,
    marketCap: real)

  function ReportOf(s: TokenState): (r: Report)
    ensures r.holdersChange + s.yesterdayHolders == s.holders
    ensures r.address == s.config.address && r.circulatingSupply == s.circulatingSupply
  {
    Report(s.config.address, s.holders, s.holders - s.yesterdayHolders, s.transactions,
      s.marketingWalletValueUsd, s.distributedRewards, s.circulatingSupply, s.marketCap)
  }

  /** The steps of synchronize_data, named as their failure messages name them. */
  datatype Step = CirculationSupply | LpInfo | TransactionsNumber | HoldersNumber
                | DistributedRewards | MarketingWalletValue

  /** The order synchronize_data attempts them in. */
  const Order: seq<Step> := [CirculationSupply, LpInfo, TransactionsNumber, HoldersNumber,
                             DistributedRewards, MarketingWalletValue]

  /** The final state, the steps that failed (in the order they ran) and the record written. */
  datatype Run = Run(state: TokenState, failed: seq<Step>, report: Report)

  /**
    synchronize_data: every step runs on the state the previous ones left, failed or not;
    the record is written from the final state, and the addresses and capture time never change.
   */
  function Synchronize(s: TokenState, p: Provider): (r: Run)
    ensures r.report == ReportOf(r.state)
    ensures r.state.config == s.config && r.state.now == s.now
    ensures |r.failed| <= |Order|
  {
    var outcomes := Outcomes(s, p);
    var last := outcomes[5].state;
    Run(last, FailedSteps(Order, OksOf(outcomes)), ReportOf(last))
  }

  /** The six step results, each step run on the state the previous one left. */
  function Outcomes(s: TokenState, p: Provider): (r: seq<StepResult>)
    ensures |r| == |Order|
    ensures forall i :: 0 <= i < |r| ==> r[i].state.config == s.config && r[i].state.now == s.now
  {
    var a := SupplyStep(s, p);
    var b := LpStep(a.state, p);
    var c := TransactionsStep(b.state, p);
    var d := HoldersStep(c.state, p);
    var e := RewardsStep(d.state, p);
    var f := MarketingStep(e.state, p);
    [a, b, c, d, e, f]
  }

  // ---------------------------------------------------------------------------
  // What each step does and does not change
  // ---------------------------------------------------------------------------

  /**
    The supply step succeeds exactly when all six lookups answer and the total supply
    converts, and then sets the circulating supply by the formula and the block heights,
    the price and the decimals to the answers.
   */
  lemma SupplyStepEffect(s: TokenState, p: Provider)
    ensures SupplyStep(s, p).ok <==>
      p.blockBefore(TruncReal(s.now)).Some? && p.blockBefore(TruncReal(s.now - 86400.0)).Some? &&
      p.bnbPrice.Some? && p.totalSupply.Parsed? && p.tokenDecimal.Some? && p.burnBalance.Some?
    ensures SupplyStep(s, p).ok ==>
      SupplyStep(s, p).state.circulatingSupply ==
        CirculatingSupply(p.totalSupply.value, p.burnBalance.value, p.tokenDecimal.value)
    ensures SupplyStep(s, p).ok ==>
      var r := SupplyStep(s, p).state;
      r.blockNow == p.blockBefore(TruncReal(s.now)).value &&
      r.yesterdayBlock == p.blockBefore(TruncReal(s.now - 86400.0)).value &&
      r.bnbPrice == p.bnbPrice.value && r.decimal == p.tokenDecimal.value
  {
  }

  /**
    A failed burn-balance lookup leaves the circulating supply as it was, although the
    block heights, the price and the decimals have already been overwritten.
   */
  lemma SupplyStepBurnFailure(s: TokenState, p: Provider)
    requires p.blockBefore(TruncReal(s.now)).Some? && p.blockBefore(TruncReal(s.now - 86400.0)).Some?
    requires p.bnbPrice.Some? && p.totalSupply.Parsed? && p.tokenDecimal.Some? && p.burnBalance.None?
    ensures var r := SupplyStep(s, p);
      !r.ok && r.state.circulatingSupply == s.circulatingSupply &&
      r.state.blockNow == p.blockBefore(TruncReal(s.now)).value &&
      r.state.yesterdayBlock == p.blockBefore(TruncReal(s.now - 86400.0)).value &&
      r.state.bnbPrice == p.bnbPrice.value && r.state.decimal == p.tokenDecimal.value
  {
  }

  /**
    A total supply that arrives but does not convert raises only on the supply line: the
    decimals have already been overwritten, and the supply keeps its value.
   */
  lemma SupplyStepUnconvertibleTotal(s: TokenState, p: Provider)
    requires p.blockBefore(TruncReal(s.now)).Some? && p.blockBefore(TruncReal(s.now - 86400.0)).Some?
    requires p.bnbPrice.Some? && p.totalSupply.Unparsable? && p.tokenDecimal.Some?
    ensures var r := SupplyStep(s, p);
      !r.ok && r.state.circulatingSupply == s.circulatingSupply &&
      r.state.decimal == p.tokenDecimal.value && r.state.bnbPrice == p.bnbPrice.value
  {
  }

  /** A block lookup that never answers a later time with an earlier block. */
  ghost predicate MonotoneBlocks(blockBefore: int -> Option<int>)
  {
    forall t1, t2 :: t1 <= t2 && blockBefore(t1).Some? && blockBefore(t2).Some? ==>
      blockBefore(t1).value <= blockBefore(t2).value
  }

  /** With a monotone block lookup, yesterday's block is never after today's. */
  lemma YesterdayBlockNotAfterNow(s: TokenState, p: Provider)
    requires MonotoneBlocks(p.blockBefore)
    requires p.blockBefore(TruncReal(s.now)).Some? && p.blockBefore(TruncReal(s.now - 86400.0)).Some?
    ensures SupplyStep(s, p).state.yesterdayBlock <= SupplyStep(s, p).state.blockNow
  {
  }

  /**
    The market-cap step succeeds exactly when two balances came back and the token side is
    non-zero; it then relates the cap to the positional ratio, and otherwise changes nothing.
   */
  lemma LpStepEffect(s: TokenState, p: Provider)
    ensures LpStep(s, p).ok <==>
      p.lpBalances.Some? && |p.lpBalances.value| >= 2 && p.lpBalances.value[0] != 0.0
    ensures LpStep(s, p).ok ==>
      LpStep(s, p).state.marketCap * p.lpBalances.value[0] ==
        s.circulatingSupply as real * p.lpBalances.value[1] * s.bnbPrice
  {
  }

  /** The holders step only appends to the list, keeping what it held as a prefix. */
  lemma HoldersStepEffect(s: TokenState, p: Provider)
    ensures |HoldersStep(s, p).state.holdersLst| >= |s.holdersLst|
    ensures HoldersStep(s, p).state.holdersLst[..|s.holdersLst|] == s.holdersLst
  {
    var r := HoldersStep(s, p);
    assert r.state.holdersLst == s.holdersLst || exists t :: r.state.holdersLst == s.holdersLst + t;
  }

  /**
    yesterday_holders is written before the second query: if that query fails, the current
    count and the list are unchanged but yesterday's count is already the new one.
   */
  lemma HoldersStepSecondQueryFails(s: TokenState, p: Provider)
    requires p.holdersAt(s.yesterdayBlock).Some?
    requires p.holderChanges(s.yesterdayBlock, s.blockNow).None?
    ensures var r := HoldersStep(s, p);
      !r.ok && r.state.yesterdayHolders == p.holdersAt(s.yesterdayBlock).value &&
      r.state.holders == s.holders && r.state.holdersLst == s.holdersLst
  {
  }

  /**
    When every item is readable, the step succeeds, sets both counts, and appends after the
    old list exactly the scaled balances of the items not held by the burn or LP address,
    one per item, in response order.
   */
  lemma HoldersStepAppendsKept(s: TokenState, p: Provider, page: HolderPage, items: seq<HolderItem>)
    requires p.holdersAt(s.yesterdayBlock).Some?
    requires p.holderChanges(s.yesterdayBlock, s.blockNow) == Some(page) && page.items == Some(items)
    requires forall i :: 0 <= i < |items| ==> Readable(items[i], s.config.burnAddress, s.config.lpAddress)
    ensures forall x :: x in Kept(items, s.config.burnAddress, s.config.lpAddress) ==> x.nextBalance.Some?
    ensures var r := HoldersStep(s, p);
      r.ok && r.state.yesterdayHolders == p.holdersAt(s.yesterdayBlock).value &&
      r.state.holders == page.totalCount &&
      r.state.holdersLst == s.holdersLst + Scaled(Kept(items, s.config.burnAddress, s.config.lpAddress), s.decimal)
  {
    CollectKeeps(items, s.config.burnAddress, s.config.lpAddress, s.decimal);
  }

  /**
    An item without a holder, or a kept item whose balance does not parse, makes the step
    raise: both counts are already written, and the list keeps exactly the scaled balances
    of the kept items before it.
   */
  lemma HoldersStepBadItem(s: TokenState, p: Provider, page: HolderPage, items: seq<HolderItem>, k: int)
    requires p.holdersAt(s.yesterdayBlock).Some?
    requires p.holderChanges(s.yesterdayBlock, s.blockNow) == Some(page) && page.items == Some(items)
    requires 0 <= k < |items| && !Readable(items[k], s.config.burnAddress, s.config.lpAddress)
    requires forall i :: 0 <= i < k ==> Readable(items[i], s.config.burnAddress, s.config.lpAddress)
    ensures forall x :: x in Kept(items[..k], s.config.burnAddress, s.config.lpAddress) ==> x.nextBalance.Some?
    ensures var r := HoldersStep(s, p);
      !r.ok && r.state.yesterdayHolders == p.holdersAt(s.yesterdayBlock).value &&
      r.state.holders == page.totalCount &&
      r.state.holdersLst == s.holdersLst + Scaled(Kept(items[..k], s.config.burnAddress, s.config.lpAddress), s.decimal)
  {
    var burn, lp := s.config.burnAddress, s.config.lpAddress;
    var pre := items[..k];
    assert forall i :: 0 <= i < |pre| ==> pre[i] == items[i];
    CollectKeeps(pre, burn, lp, s.decimal);
    assert items == pre + items[k..];
    assert items[k..][0] == items[k];
    CollectAppend(pre, items[k..], burn, lp, s.decimal);
  }

  // ---------------------------------------------------------------------------
  // The pipeline
  // ---------------------------------------------------------------------------

  /**
    Failure isolation: each independent scalar ends up as its own response says, whatever
    the other steps did, and the supply, market-cap and holder fields are those their own
    step left, since no later step writes them.
   */
  lemma SynchronizeIsolation(s: TokenState, p: Provider)
    ensures var f := Synchronize(s, p).state;
      f.transactions == (if p.transactions.Some? then p.transactions.value else s.transactions) &&
      f.distributedRewards == (if p.distributedRewards.Some? then p.distributedRewards.value else s.distributedRewards) &&
      f.marketingWalletValueUsd == (if p.marketingValueUsd.Some? then p.marketingValueUsd.value else s.marketingWalletValueUsd)
    ensures var a := SupplyStep(s, p).state;
      var b := LpStep(a, p).state;
      var d := HoldersStep(TransactionsStep(b, p).state, p).state;
      var f := Synchronize(s, p).state;
      f.circulatingSupply == a.circulatingSupply && f.blockNow == a.blockNow &&
      f.yesterdayBlock == a.yesterdayBlock && f.decimal == a.decimal && f.bnbPrice == a.bnbPrice &&
      f.marketCap == b.marketCap &&
      f.holders == d.holders && f.yesterdayHolders == d.yesterdayHolders && f.holdersLst == d.holdersLst
  {
    var a := SupplyStep(s, p);
    var b := LpStep(a.state, p);
    var c := TransactionsStep(b.state, p);
    SupplyStepEffect(s, p);
    LpStepEffect(a.state, p);
    HoldersStepEffect(c.state, p);
  }

  /** The position of a step in the order synchronize_data runs them. */
  function Rank(step: Step): (r: nat)
    ensures r < |Order| && Order[r] == step
  {
    match step
    case CirculationSupply => 0
    case LpInfo => 1
    case TransactionsNumber => 2
    case HoldersNumber => 3
    case DistributedRewards => 4
    case MarketingWalletValue => 5
  }

  /** Steps listed in pipeline order, each at most once. */
  predicate Ascending(steps: seq<Step>)
  {
    forall i, j :: 0 <= i < j < |steps| ==> Rank(steps[i]) < Rank(steps[j])
  }

  /** The steps whose outcome is a failure, in the order given. */
  function FailedSteps(steps: seq<Step>, oks: seq<bool>): (r: seq<Step>)
    requires |steps| == |oks|
    ensures |r| <= |steps|
    decreases |steps|
  {
    if steps == [] then []
    else (if oks[0] then [] else [steps[0]]) + FailedSteps(steps[1..], oks[1..])
  }

  /** A step is listed exactly when some position with that step failed; order is kept. */
  lemma {:induction false} FailedStepsSpec(steps: seq<Step>, oks: seq<bool>)
    requires |steps| == |oks|
    ensures forall x :: x in FailedSteps(steps, oks) <==>
      exists i :: 0 <= i < |steps| && steps[i] == x && !oks[i]
    ensures Ascending(steps) ==> Ascending(FailedSteps(steps, oks))
    ensures forall x :: x in FailedSteps(steps, oks) ==> x in steps
    decreases |steps|
  {
    if steps != [] {
      var tail, tailOks := steps[1..], oks[1..];
      FailedStepsSpec(tail, tailOks);
      var rest := FailedSteps(tail, tailOks);
      forall x
        ensures x in FailedSteps(steps, oks) <==> exists i :: 0 <= i < |steps| && steps[i] == x && !oks[i]
      {
        if x in rest {
          var i :| 0 <= i < |tail| && tail[i] == x && !tailOks[i];
          assert steps[i + 1] == x && !oks[i + 1];
        }
        if exists i :: 0 <= i < |steps| && steps[i] == x && !oks[i] {
          var i :| 0 <= i < |steps| && steps[i] == x && !oks[i];
          if i > 0 {
            assert tail[i - 1] == x && !tailOks[i - 1];
          }
        }
      }
      if Ascending(steps) {
        assert Ascending(tail);
        forall y | y in rest
          ensures Rank(steps[0]) < Rank(y)
        {
          var i :| 0 <= i < |tail| && tail[i] == y;
          assert steps[i + 1] == y;
        }
      }
    }
  }

  function OksOf(outcomes: seq<StepResult>): (r: seq<bool>)
    ensures |r| == |outcomes|
  {
    seq(|outcomes|, i requires 0 <= i < |outcomes| => outcomes[i].ok)
  }

  lemma OrderAscending()
    ensures Ascending(Order)
  {
  }

  lemma OrderDistinct(i: int, x: Step)
    requires 0 <= i < |Order| && Order[i] == x
    ensures i == Rank(x)
  {
  }

  /** Over the pipeline's order, a step is listed exactly when its own outcome failed. */
  lemma FailedStepsOfOrder(outcomes: seq<StepResult>)
    requires |outcomes| == |Order|
    ensures forall x :: x in FailedSteps(Order, OksOf(outcomes)) <==> !outcomes[Rank(x)].ok
    ensures Ascending(FailedSteps(Order, OksOf(outcomes)))
  {
    var oks := OksOf(outcomes);
    FailedStepsSpec(Order, oks);
    OrderAscending();
    var failed := FailedSteps(Order, oks);
    forall x
      ensures x in failed <==> !outcomes[Rank(x)].ok
    {
      if x in failed {
        var i :| 0 <= i < |Order| && Order[i] == x && !oks[i];
        OrderDistinct(i, x);
      } else {
        assert !(0 <= Rank(x) < |Order| && Order[Rank(x)] == x && !oks[Rank(x)]);
      }
    }
  }

  /**
    Every step is attempted: a step is reported failed exactly when it raised, and the
    failures are reported in the fixed order of the pipeline.
   */
  lemma SynchronizeReportsFailures(s: TokenState, p: Provider)
    ensures forall x :: x in Synchronize(s, p).failed <==> !Outcomes(s, p)[Rank(x)].ok
    ensures Ascending(Synchronize(s, p).failed)
  {
    FailedStepsOfOrder(Outcomes(s, p));
  }

  /**
    A failed burn-balance lookup, starting from a fresh token: the record shows a
    circulating supply of 0, and the market cap, which is still computed from that 0
    supply, is 0 too.
   */
  lemma BurnFailureReportsZeros(config: TokenConfig, now: real, p: Provider)
    requires p.burnBalance.None?
    ensures Synchronize(Initial(config, now), p).report.circulatingSupply == 0
    ensures Synchronize(Initial(config, now), p).report.marketCap == 0.0
  {
    var s := Initial(config, now);
    var a := SupplyStep(s, p);
    SupplyStepEffect(s, p);
    LpStepEffect(a.state, p);
    SynchronizeIsolation(s, p);
    if LpStep(a.state, p).ok {
      MarketCapZeroSupply(p.lpBalances.value, a.state.bnbPrice);
    }
  }

  /**
    Starting from a fresh token, if yesterday's count arrives but the second holder query
    fails, the record shows 0 holders and a 24h change of minus yesterday's count.
   */
  lemma SecondHolderQueryFailureReport(config: TokenConfig, now: real, p: Provider, yesterday: int)
    requires var a := SupplyStep(Initial(config, now), p).state;
      p.holdersAt(a.yesterdayBlock) == Some(yesterday) && p.holderChanges(a.yesterdayBlock, a.blockNow).None?
    ensures Synchronize(Initial(config, now), p).report.holders == 0
    ensures Synchronize(Initial(config, now), p).report.holdersChange == -yesterday
  {
    var s := Initial(config, now);
    var a := SupplyStep(s, p);
    var b := LpStep(a.state, p);
    var c := TransactionsStep(b.state, p);
    SupplyStepEffect(s, p);
    LpStepEffect(a.state, p);
    HoldersStepSecondQueryFails(c.state, p);
    SynchronizeIsolation(s, p);
  }

  /** The providers all failing. */
  ghost predicate AllFail(p: Provider)
  {
    (forall t :: p.blockBefore(t).None?) && p.bnbPrice.None? && p.totalSupply.NoAnswer? &&
    p.tokenDecimal.None? && p.burnBalance.None? && p.lpBalances.None? && p.transactions.None? &&
    (forall b :: p.holdersAt(b).None?) && (forall b1, b2 :: p.holderChanges(b1, b2).None?) &&
    p.distributedRewards.None? && p.marketingValueUsd.None?
  }

  /** Even when every provider fails, a record is produced: the all-default one. */
  lemma AllFailReportsDefaults(config: TokenConfig, now: real, p: Provider)
    requires AllFail(p)
    ensures Synchronize(Initial(config, now), p).report == Report(config.address, 0, 0, 0, 0.0, 0.0, 0, 0.0)
    ensures Synchronize(Initial(config, now), p).failed == Order
  {
    var s := Initial(config, now);
    var failedStep := StepResult(s, false);
    assert SupplyStep(s, p) == failedStep;
    assert LpStep(s, p) == failedStep;
    assert TransactionsStep(s, p) == failedStep;
    assert HoldersStep(s, p) == failedStep;
    assert RewardsStep(s, p) == failedStep;
    assert MarketingStep(s, p) == failedStep;
    assert Outcomes(s, p) == [failedStep, failedStep, failedStep, failedStep, failedStep, failedStep];
    assert OksOf(Outcomes(s, p)) == [false, false, false, false, false, false];
  }
}
