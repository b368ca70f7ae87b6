/**
  The Token class: an object whose methods overwrite its fields step by step. Each method
  is proved to move the object's state exactly as the corresponding Snapshot step does.
 */
module TokenClass {
  import opened Wrappers
  import opened Metrics
  import opened Snapshot

  class Token {
    const now: real
    const address: string
    const marketingWalletAddress: string
    const rewardsContractAddress: string
    const rewardedTokenContractAddress: string
    const burnAddress: string
    const lpAddress: string

    var holders: int
    var yesterdayHolders: int
    var transactions: int
    var marketingWalletValueUsd: real
    var distributedRewards: real
    var circulatingSupply: int
    var decimal: nat
    var holdersLst: seq<real>
    var bnbPrice: real
    var marketCap: real
    var blockNow: int
    var yesterdayBlock: int

    function Config(): (c: TokenConfig)
    {
      TokenConfig(address, marketingWalletAddress, rewardsContractAddress,
                  rewardedTokenContractAddress, burnAddress, lpAddress)
    }

    /** The object's fields as a value. */
    function State(): (s: TokenState)
      reads this
    {
      TokenState(Config(), now, holders, yesterdayHolders, transactions, marketingWalletValueUsd,
                 distributedRewards, circulatingSupply, decimal, holdersLst, bnbPrice, marketCap,
                 blockNow, yesterdayBlock)
    }

    /** Token.__init__, with the capture time passed in instead of read from the clock. */
    constructor (address: string, marketingWallet: string, rewardsContract: string,
                 rewardedTokenContractAddress: string, burnAddress: string, lpAddress: string,
                 now: real)
      ensures State() == Initial(TokenConfig(address, marketingWallet, rewardsContract,
                                             rewardedTokenContractAddress, burnAddress, lpAddress), now)
    {
      this.now := now;
      this.address := address;
      this.marketingWalletAddress := marketingWallet;
      this.rewardsContractAddress := rewardsContract;
      this.rewardedTokenContractAddress := rewardedTokenContractAddress;
      this.burnAddress := burnAddress;
      this.lpAddress := lpAddress;
      holders := 0;
      yesterdayHolders := 0;
      transactions := 0;
      marketingWalletValueUsd := 0.0;
      distributedRewards := 0.0;
      circulatingSupply := 0;
      decimal := 0;
      holdersLst := [];
      bnbPrice := 0.0;
      marketCap := 0.0;
      blockNow := 0;
      yesterdayBlock := 0;
    }

    /** get_lp_info; ok is false where the Python method raises. */
    method GetLpInfo(p: Provider) returns (ok: bool)
      modifies this
      ensures StepResult(State(), ok) == LpStep(old(State()), p)
    {
      if p.lpBalances.None? {
        return false;
      }
      var balances := p.lpBalances.value;
      if |balances| < 2 {
        return false;
      }
      var tokenAmount := balances[0];
      var wbnbAmount := balances[1];
      if tokenAmount == 0.0 {
        return false;
      }
      marketCap := circulatingSupply as real * (wbnbAmount / tokenAmount) * bnbPrice;
      ok := true;
    }

    /** get_transactions_number. */
    method GetTransactionsNumber(p: Provider) returns (ok: bool)
      modifies this
      ensures StepResult(State(), ok) == TransactionsStep(old(State()), p)
    {
      if p.transactions.None? {
        return false;
      }
      transactions := p.transactions.value;
      ok := true;
    }

    /** get_marketing_wallet_value. */
    method GetMarketingWalletValue(p: Provider) returns (ok: bool)
      modifies this
      ensures StepResult(State(), ok) == MarketingStep(old(State()), p)
    {
      if p.marketingValueUsd.None? {
        return false;
      }
      marketingWalletValueUsd := p.marketingValueUsd.value;
      ok := true;
    }

    /** get_distributed_rewards. */
    method GetDistributedRewards(p: Provider) returns (ok: bool)
      modifies this
      ensures StepResult(State(), ok) == RewardsStep(old(State()), p)
    {
      if p.distributedRewards.None? {
        return false;
      }
      distributedRewards := p.distributedRewards.value;
      ok := true;
    }

    /**
      get_holders_number: the two counts, then a loop over the items that appends the
      scaled balance of every holder other than the burn and LP addresses.
     */
    method GetHoldersNumber(p: Provider) returns (ok: bool)
      modifies this
      ensures StepResult(State(), ok) == HoldersStep(old(State()), p)
    {
      var yesterday := p.holdersAt(yesterdayBlock);
      if yesterday.None? {
        return false;
      }
      yesterdayHolders := yesterday.value;
      var page := p.holderChanges(yesterdayBlock, blockNow);
      if page.None? {
        return false;
      }
      holders := page.value.totalCount;
      if page.value.items.None? {
        return false;
      }
      var items := page.value.items.value;
      ghost var before := State();
      var i := 0;
      while i < |items|
        invariant 0 <= i <= |items|
        invariant Collect(items[..i], burnAddress, lpAddress, decimal).complete
        invariant State() == before.(holdersLst := before.holdersLst
                                      + Collect(items[..i], burnAddress, lpAddress, decimal).appended)
      {
        var x := items[i];
        assert items[..i + 1] == items[..i] + [x];
        CollectAppend(items[..i], [x], burnAddress, lpAddress, decimal);
        if !Readable(x, burnAddress, lpAddress) {
          // a missing token_holder, or a kept next_balance that int() rejects, raises
          assert items == items[..i] + items[i..];
          assert items[i..][0] == x;
          CollectAppend(items[..i], items[i..], burnAddress, lpAddress, decimal);
          return false;
        }
        var holder := x.tokenHolder.value;
        if holder != burnAddress && holder != lpAddress {
          holdersLst := holdersLst + [Scale(x.nextBalance.value, decimal)];
        }
        i := i + 1;
      }
      assert items[..|items|] == items;
      ok := true;
    }

    /**
      get_circulation_supply: block heights, price and decimals are written as they arrive;
      a failed burn-balance lookup is swallowed but leaves the balance unbound, so the
      supply line raises, as it does on a total supply that does not convert, and
      circulating_supply keeps its value.
     */
    method GetCirculationSupply(p: Provider) returns (ok: bool)
      modifies this
      ensures StepResult(State(), ok) == SupplyStep(old(State()), p)
    {
      var nowBlock := p.blockBefore(TruncReal(now));
      if nowBlock.None? {
        return false;
      }
      blockNow := nowBlock.value;
      var dayBefore := p.blockBefore(TruncReal(now - 86400.0));
      if dayBefore.None? {
        return false;
      }
      yesterdayBlock := dayBefore.value;
      var price := p.bnbPrice;
      if price.None? {
        return false;
      }
      bnbPrice := price.value;
      var totalSupply := p.totalSupply;
      if totalSupply.NoAnswer? {
        return false;
      }
      var tokenDecimal := p.tokenDecimal;
      if tokenDecimal.None? {
        return false;
      }
      decimal := tokenDecimal.value;
      var burnBalance := p.burnBalance;
      if totalSupply.Unparsable? || burnBalance.None? {
        return false;
      }
      circulatingSupply := CirculatingSupply(totalSupply.value, burnBalance.value, decimal);
      ok := true;
    }

    /** The record to_file writes. */
    method ToFile() returns (record: Report)
      ensures record == ReportOf(State())
      ensures record.holdersChange == holders - yesterdayHolders
    {
      record := Report(address, holders, holders - yesterdayHolders, transactions,
                       marketingWalletValueUsd, distributedRewards, circulatingSupply, marketCap);
    }

    /**
      synchronize_data: every step is attempted in the fixed order on the state the earlier
      ones left; failures are reported, not propagated; the record is produced last.
     */
    method SynchronizeData(p: Provider) returns (failed: seq<Step>, record: Report)
      modifies this
      ensures Run(State(), failed, record) == Synchronize(old(State()), p)
    {
      var supplyOk := GetCirculationSupply(p);
      var lpOk := GetLpInfo(p);
      var transactionsOk := GetTransactionsNumber(p);
      var holdersOk := GetHoldersNumber(p);
      var rewardsOk := GetDistributedRewards(p);
      var marketingOk := GetMarketingWalletValue(p);
      failed := FailedSteps(Order, [supplyOk, lpOk, transactionsOk, holdersOk, rewardsOk, marketingOk]);
      record := ToFile();
    }

    /** holders_analysis: the two concentration figures, or the division error it raises. */
    method HoldersAnalysis() returns (r: Result<Concentration>)
      ensures r == Analyse(holdersLst, circulatingSupply)
      ensures r.Ok? <==> circulatingSupply != 0
    {
      var wholeHolders := WholeHolderCount(holdersLst, circulatingSupply);
      r := match TopTenShare(holdersLst, circulatingSupply)
           case Err(f) => Err(f)
           case Ok(pct) => Ok(Concentration(wholeHolders, pct));
    }
  }

  /**
    One pass of the script's per-token body: build the Token, synchronise it, analyse it.
    A zero circulating supply makes the analysis fail, which in the script is uncaught.
   */
  method RunToken(config: TokenConfig, now: real, p: Provider)
    returns (failed: seq<Step>, record: Report, analysis: Result<Concentration>)
    ensures var run := Synchronize(Initial(config, now), p);
      failed == run.failed && record == run.report &&
      analysis == Analyse(run.state.holdersLst, run.state.circulatingSupply)
  {
    var token := new Token(config.address, config.marketingWallet, config.rewardsContract,
                           config.rewardedToken, config.burnAddress, config.lpAddress, now);
    failed, record := token.SynchronizeData(p);
    analysis := token.HoldersAnalysis();
  }
}
