/** Value types shared by the dApp staking storage items. Balances, eras, periods and
    blocks are unbounded naturals. */
module StakeTypes {
  import opened Arithmetic

  type Balance = nat
  type EraNumber = nat
  type PeriodNumber = nat
  type BlockNumber = nat
  type AccountId = nat
  type SmartContract = nat
  type DAppId = nat

  datatype Option<+T> = None | Some(value: T)

  datatype Subperiod = Voting | BuildAndEarn {
    function Next(): Subperiod {
      match this
      case Voting => BuildAndEarn
      case BuildAndEarn => Voting
    }
  }

  datatype PeriodInfo = PeriodInfo(number: PeriodNumber, subperiod: Subperiod, nextSubperiodStartEra: EraNumber) {
    predicate IsNextPeriod(era: EraNumber) {
      subperiod == BuildAndEarn && nextSubperiodStartEra <= era
    }
  }

  datatype ProtocolState = ProtocolState(
    era: EraNumber,
    nextEraStart: BlockNumber,
    periodInfo: PeriodInfo,
    maintenance: bool)
  {
    predicate IsNewEra(now: BlockNumber) {
      nextEraStart <= now
    }

    /** Enters the next subperiod; leaving Build&Earn starts a new period. */
    function AdvanceToNextSubperiod(nextSubperiodStartEra: EraNumber, nextEraStart: BlockNumber): ProtocolState {
      var number := match periodInfo.subperiod
        case Voting => periodInfo.number
        case BuildAndEarn => periodInfo.number + 1;
      this.(periodInfo := PeriodInfo(number, periodInfo.subperiod.Next(), nextSubperiodStartEra),
            nextEraStart := nextEraStart)
    }
  }

  /** How much is staked in one era of one period, split by the subperiod it was staked in. */
  datatype StakeAmount = StakeAmount(voting: Balance, buildAndEarn: Balance, era: EraNumber, period: PeriodNumber) {
    predicate IsEmpty() {
      voting == 0 && buildAndEarn == 0
    }

    const total: Balance := voting + buildAndEarn

    function Add(amount: Balance, subperiod: Subperiod): (r: StakeAmount)
      ensures r.total == total + amount && r.era == era && r.period == period
    {
      match subperiod
      case Voting => this.(voting := voting + amount)
      case BuildAndEarn => this.(buildAndEarn := buildAndEarn + amount)
    }

    /** Build&Earn stake is taken first, the rest comes out of the Voting stake. */
    function Subtract(amount: Balance): (r: StakeAmount)
      ensures r.total == SatSub(total, amount) && r.era == era && r.period == period
      ensures r.voting <= voting && r.buildAndEarn <= buildAndEarn
    {
      if buildAndEarn >= amount then
        this.(buildAndEarn := buildAndEarn - amount)
      else
        this.(buildAndEarn := 0, voting := SatSub(voting, amount - buildAndEarn))
    }
  }

  const NO_STAKE := StakeAmount(0, 0, 0, 0)

  datatype UnlockingChunk = UnlockingChunk(amount: Balance, unlockBlock: BlockNumber)

  /** Protocol-wide amounts of the current era. */
  datatype EraInfo = EraInfo(
    totalLocked: Balance,
    unlocking: Balance,
    currentStakeAmount: StakeAmount,
    nextStakeAmount: StakeAmount)
  {
    function AddLocked(amount: Balance): EraInfo {
      this.(totalLocked := totalLocked + amount)
    }

    function UnlockingStarted(amount: Balance): EraInfo {
      this.(totalLocked := SatSub(totalLocked, amount), unlocking := unlocking + amount)
    }

    function UnlockingRemoved(amount: Balance): EraInfo {
      this.(unlocking := SatSub(unlocking, amount))
    }

    function AddStakeAmount(amount: Balance, subperiod: Subperiod): EraInfo {
      this.(nextStakeAmount := nextStakeAmount.Add(amount, subperiod))
    }

    function UnstakeAmount(amount: Balance): EraInfo {
      this.(currentStakeAmount := currentStakeAmount.Subtract(amount),
            nextStakeAmount := nextStakeAmount.Subtract(amount))
    }

    function MigrateToNextEra(nextSubperiod: Option<Subperiod>): EraInfo {
      if nextSubperiod == Some(Voting) then
        this.(currentStakeAmount := StakeAmount(0, 0, currentStakeAmount.era + 1, currentStakeAmount.period + 1),
              nextStakeAmount := StakeAmount(0, 0, nextStakeAmount.era + 1, nextStakeAmount.period + 1))
      else
        this.(currentStakeAmount := nextStakeAmount,
              nextStakeAmount := nextStakeAmount.(era := nextStakeAmount.era + 1))
    }
  }

  const NO_ERA_INFO := EraInfo(0, 0, NO_STAKE, NO_STAKE)

  datatype PeriodEndInfo = PeriodEndInfo(bonusRewardPool: Balance, totalVpStake: Balance, finalEra: EraNumber)
}
