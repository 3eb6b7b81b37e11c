/** The inflation pallet with its storage items as fields, next to the era clock that
    notifies it. */
module InflationPallet {
  import opened Arithmetic
  import opened StakeTypes
  import opened Inflation
  import InflationCycle

  class InflationNode {
    const cycle: InflationCycle.Cycle
    var now: BlockNumber
    var clock: ProtocolState
    var params: InflationParameters
    var config: InflationConfiguration
    var doRecalculation: Option<EraNumber>
    ghost var tally: InflationCycle.Tally
    ghost var finished: seq<InflationCycle.Tally>

    ghost function View(): InflationCycle.Chain
      reads this
    {
      InflationCycle.Chain(now, clock, params, config, doRecalculation, tally, finished)
    }

    /** The first configuration is calculated before the given parameters are stored. */
    constructor (c: InflationCycle.Cycle, p: InflationParameters, issuance: Balance)
      ensures cycle == c && View() == InflationCycle.GenesisChain(c, p, issuance)
    {
      cycle := c;
      now := 0;
      clock := ProtocolState(1, InflationCycle.VotingLength(c) + 1, PeriodInfo(1, Voting, 2), false);
      config := Recalculate(DEFAULT_PARAMETERS, c, issuance, 1);
      params := p;
      doRecalculation := None;
      tally := InflationCycle.Tally(1, MaxEmission(DEFAULT_PARAMETERS, issuance), 0, 0, 0, 0);
      finished := [];
    }

    method PayoutBlockRewards() returns (issued: Balance)
      modifies this`tally
      ensures issued == config.BlockReward()
      ensures tally == old(tally).(blocks := old(tally).blocks + 1, granted := old(tally).granted + issued)
    {
      issued := config.collatorRewardPerBlock + config.treasuryRewardPerBlock;
      tally := tally.(blocks := tally.blocks + 1, granted := tally.granted + issued);
    }

    method BlockBeforeNewEra(newEra: EraNumber)
      modifies this`doRecalculation
      ensures doRecalculation == if config.recalculationEra <= newEra then Some(newEra) else old(doRecalculation)
    {
      if config.recalculationEra <= newEra {
        doRecalculation := Some(newEra);
      }
    }

    method StakerAndDAppRewardPools(staked: Balance, issuance: Balance) returns (stakers: Balance, dapps: Balance)
      ensures (stakers, dapps) == config.EraPools(staked, issuance)
      ensures stakers + dapps <= config.MaxEraPools()
    {
      var ratio := RatioDown(PERQUINTILL, staked, issuance);
      var factor := RatioDown(PERQUINTILL, ratio, config.idealStakingRate);
      var adjustable := MulNearest(PERQUINTILL, factor, config.adjustableStakerRewardPoolPerEra);
      stakers := config.baseStakerRewardPoolPerEra + adjustable;
      dapps := config.dappRewardPoolPerEra;
      EraPoolsBounded(config, staked, issuance);
    }

    /** The part of the era handler that concerns the clock and the pools. */
    method HandleEra(staked: Balance, issuance: Balance)
      modifies this`tally, this`clock, this`doRecalculation
      ensures View() == var told := InflationCycle.Notify(old(View()));
                        if !told.clock.IsNewEra(told.now) then told
                        else told.(tally := InflationCycle.GrantPools(told, staked, issuance),
                                   clock := InflationCycle.NextClock(cycle, told.now, told.clock))
    {
      if clock.nextEraStart == now + 1 {
        BlockBeforeNewEra(clock.era + 1);
      }
      if !clock.IsNewEra(now) {
        return;
      }
      if clock.periodInfo.subperiod == BuildAndEarn {
        var stakers, dapps := StakerAndDAppRewardPools(staked, issuance);
        tally := tally.(eraPools := tally.eraPools + 1, granted := tally.granted + stakers + dapps);
        if clock.periodInfo.IsNextPeriod(clock.era + 1) {
          tally := tally.(bonusPools := tally.bonusPools + 1, granted := tally.granted + config.bonusRewardPoolPerPeriod);
        }
      }
      clock := InflationCycle.NextClock(cycle, now, clock);
    }

    method ForceSetInflationParams(newParams: InflationParameters) returns (ok: bool)
      modifies this`params
      ensures ok == newParams.IsValid()
      ensures View() == InflationCycle.SetParams(old(View()), Some(newParams))
    {
      ok := newParams.IsValid();
      if ok {
        params := newParams;
      }
    }

    method OnFinalize(issuance: Balance)
      modifies this`config, this`doRecalculation, this`tally, this`finished
      ensures View() == InflationCycle.Finalize(cycle, old(View()), issuance)
    {
      if doRecalculation.Some? {
        config := Recalculate(params, cycle, issuance, doRecalculation.value);
        doRecalculation := None;
        finished := finished + [tally];
        tally := InflationCycle.Tally(clock.periodInfo.number + 1, MaxEmission(params, issuance), 0, 0, 0, 0);
      }
    }

    /** One block: the hooks of its start, the root call in it, the hook of its end. */
    method ProcessBlock(inputs: InflationCycle.BlockInputs)
      modifies this
      ensures View() == InflationCycle.Block(cycle, old(View()), inputs)
    {
      now := now + 1;
      var _ := PayoutBlockRewards();
      HandleEra(inputs.staked, inputs.issuance);
      assert View() == InflationCycle.Initialize(cycle, old(View()), inputs);
      if inputs.newParams.Some? {
        var _ := ForceSetInflationParams(inputs.newParams.value);
      }
      OnFinalize(inputs.finalIssuance);
    }
  }
}
