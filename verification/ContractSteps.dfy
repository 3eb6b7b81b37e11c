/** Contract totals follow the staker entries through stakes, unstakes, registration and
    unregistration. */
module ContractSteps {
  import opened StakeTypes
  import opened MapSums
  import opened ContractStake
  import opened Protocol
  import opened Invariant
  import opened Frames

  /** Entries never account for more in the current era than in the next one. */
  lemma NowWithinTotal(era: EraNumber, period: PeriodNumber, stakers: Stakers, contract: SmartContract)
    requires StakersOk(era, period, stakers)
    ensures Sum(stakers, StakeNowOn(contract, period, era)) <= Sum(stakers, StakeOn(contract, period))
  {
    forall k | k in stakers
      ensures StakeNowOn(contract, period, era)(k, stakers[k]) <= StakeOn(contract, period)(k, stakers[k])
    {
      assert InfoOk(era, period, stakers[k]);
    }
    SumIsMonotone(stakers, StakeNowOn(contract, period, era), StakeOn(contract, period));
  }

  /** Without entries for the next era the two sums are the same. */
  lemma NowIsTotal(era: EraNumber, period: PeriodNumber, stakers: Stakers, contract: SmartContract)
    requires forall k :: k in stakers && k.contract == contract && stakers[k].staked.period == period ==> stakers[k].staked.era <= era
    ensures Sum(stakers, StakeNowOn(contract, period, era)) == Sum(stakers, StakeOn(contract, period))
  {
    SumCongruence(stakers, StakeNowOn(contract, period, era), StakeOn(contract, period));
  }

  /** A contract without stake in the current period has no entry of it. */
  lemma NoTotalNoEntry(era: EraNumber, period: PeriodNumber, stakers: Stakers, contract: SmartContract, key: StakerKey)
    requires StakersOk(era, period, stakers) && Sum(stakers, StakeOn(contract, period)) == 0
    requires key in stakers && key.contract == contract
    ensures stakers[key].staked.period != period
  {
    assert InfoOk(era, period, stakers[key]);
    SumCoversEntry(stakers, key, StakeOn(contract, period));
  }

  /** The entry of `key` in the current period, or the new one it would be created as. */
  ghost predicate IsEntry(stakers: Stakers, key: StakerKey, period: PeriodNumber, entry: StakingInfo) {
    && entry.staked.period == period
    && (if key in stakers && stakers[key].staked.period == period then entry == stakers[key] else entry.staked.total == 0)
  }

  /** Staking on a contract keeps its total equal to the sum of the entries on it. */
  lemma StakedContractMatches(era: EraNumber, info: PeriodInfo, stakers: Stakers, key: StakerKey, entry: StakingInfo, amount: Balance, c: ContractStakeAmount)
    requires amount > 0 && info.number >= 1
    requires StakersOk(era, info.number, stakers) && ContractOk(era, info.number, c)
    requires ContractMatches(era, info.number, stakers, key.contract, c)
    requires IsEntry(stakers, key, info.number, entry) && entry.staked.era <= era + 1
    requires entry.loyalStaker ==> entry.staked.voting > 0 || info.subperiod == Voting
    ensures ContractMatches(era, info.number, stakers[key := entry.Stake(amount, era, info.subperiod)], key.contract, c.Stake(amount, info, era))
  {
    var period := info.number;
    var after := entry.Stake(amount, era, info.subperiod);
    var stakers' := stakers[key := after];
    StakeKeepsInfo(entry, amount, era, info);
    StakeKeepsContract(c, amount, era, info);
    SumInsert(stakers, key, after, StakeOn(key.contract, period));
    SumInsert(stakers, key, after, StakeNowOn(key.contract, period, era));
    if Ahead(era, c) {
      if key in stakers {
        assert InfoOk(era, period, stakers[key]);
      }
    } else {
      NowIsTotal(era, period, stakers, key.contract);
    }
  }

  /** Staking adds as much to the entries on a contract as to its total. */
  lemma StakedContractWithin(era: EraNumber, info: PeriodInfo, stakers: Stakers, key: StakerKey, entry: StakingInfo, amount: Balance, c: ContractStakeAmount)
    requires amount > 0 && info.number >= 1
    requires StakersOk(era, info.number, stakers) && ContractOk(era, info.number, c)
    requires ContractWithin(era, info.number, stakers, key.contract, c)
    requires IsEntry(stakers, key, info.number, entry) && entry.staked.era <= era + 1
    requires entry.loyalStaker ==> entry.staked.voting > 0 || info.subperiod == Voting
    ensures ContractWithin(era, info.number, stakers[key := entry.Stake(amount, era, info.subperiod)], key.contract, c.Stake(amount, info, era))
  {
    var after := entry.Stake(amount, era, info.subperiod);
    StakeKeepsInfo(entry, amount, era, info);
    StakeKeepsContract(c, amount, era, info);
    SumInsert(stakers, key, after, StakeOn(key.contract, info.number));
    SumInsert(stakers, key, after, StakeNowOn(key.contract, info.number, era));
    if key in stakers {
      assert InfoOk(era, info.number, stakers[key]);
    }
  }

  lemma StakeKeepsContracts(era: EraNumber, info: PeriodInfo, integrated: map<SmartContract, DAppId>, next: DAppId,
                            contracts: map<DAppId, ContractStakeAmount>, stakers: Stakers,
                            unregistered: map<SmartContract, PeriodNumber>, key: StakerKey, entry: StakingInfo, amount: Balance)
    requires amount > 0 && info.number >= 1 && key.contract in integrated
    requires IdsOk(integrated, next, contracts) && ContractEntriesOk(era, info.number, contracts)
    requires ContractsAgree(era, info.number, integrated, contracts, stakers, unregistered)
    requires StakersOk(era, info.number, stakers)
    requires IsEntry(stakers, key, info.number, entry) && entry.staked.era <= era + 1
    requires entry.loyalStaker ==> entry.staked.voting > 0 || info.subperiod == Voting
    ensures var id := integrated[key.contract];
            var contracts' := contracts[id := ContractOf(contracts, id).Stake(amount, info, era)];
            var stakers' := stakers[key := entry.Stake(amount, era, info.subperiod)];
            && IdsOk(integrated, next, contracts') && ContractEntriesOk(era, info.number, contracts')
            && ContractsAgree(era, info.number, integrated, contracts', stakers', unregistered)
  {
    var c := ContractOf(contracts, integrated[key.contract]);
    StakeKeepsContract(c, amount, era, info);
    if Undisturbed(unregistered, info.number, key.contract) {
      StakedContractMatches(era, info, stakers, key, entry, amount, c);
    }
    StakedContractWithin(era, info, stakers, key, entry, amount, c);
    ReplaceContract(era, info.number, integrated, next, contracts, stakers, unregistered, key,
                    stakers[key := entry.Stake(amount, era, info.subperiod)], c.Stake(amount, info, era));
  }

  /** A changed entry together with the changed total of its contract. */
  lemma ReplaceContract(era: EraNumber, period: PeriodNumber, integrated: map<SmartContract, DAppId>, next: DAppId,
                        contracts: map<DAppId, ContractStakeAmount>, stakers: Stakers,
                        unregistered: map<SmartContract, PeriodNumber>, key: StakerKey, stakers': Stakers, c': ContractStakeAmount)
    requires key.contract in integrated && IdsOk(integrated, next, contracts) && ContractEntriesOk(era, period, contracts)
    requires ContractsAgree(era, period, integrated, contracts, stakers, unregistered)
    requires stakers' == stakers - {key} || (key in stakers' && stakers' == stakers[key := stakers'[key]])
    requires ContractOk(era, period, c')
    requires ContractSound(era, period, stakers', key.contract, c', Undisturbed(unregistered, period, key.contract))
    ensures var contracts' := contracts[integrated[key.contract] := c'];
            && IdsOk(integrated, next, contracts') && ContractEntriesOk(era, period, contracts')
            && ContractsAgree(era, period, integrated, contracts', stakers', unregistered)
  {
    var contracts' := contracts[integrated[key.contract] := c'];
    forall c | c in integrated
      ensures ContractSound(era, period, stakers', c, ContractOf(contracts', integrated[c]), Undisturbed(unregistered, period, c))
    {
      if c != key.contract {
        OtherContractIsSound(era, period, stakers, key, stakers', c, ContractOf(contracts, integrated[c]), Undisturbed(unregistered, period, c));
      }
    }
  }

  /** A changed entry does not affect another contract. */
  lemma OtherContractIsSound(era: EraNumber, period: PeriodNumber, stakers: Stakers, key: StakerKey, stakers': Stakers,
                             contract: SmartContract, c: ContractStakeAmount, undisturbed: bool)
    requires ContractSound(era, period, stakers, contract, c, undisturbed) && key.contract != contract
    requires stakers' == stakers - {key} || (key in stakers' && stakers' == stakers[key := stakers'[key]])
    ensures ContractSound(era, period, stakers', contract, c, undisturbed)
  {
    SumReplace(stakers, key, stakers', StakeOn(contract, period));
    SumReplace(stakers, key, stakers', StakeNowOn(contract, period, era));
  }

  /** The entries after `info` unstaked `amount`: an empty entry is removed. */
  function AfterUnstake(stakers: Stakers, key: StakerKey, info: StakingInfo): Stakers {
    if info.staked.IsEmpty() then stakers - {key} else stakers[key := info]
  }

  /** What an unstake changes in the sums over the entries on its contract. */
  lemma UnstakeMovesSums(era: EraNumber, info: PeriodInfo, stakers: Stakers, key: StakerKey, amount: Balance)
    requires era >= 1 && StakersOk(era, info.number, stakers)
    requires key in stakers && stakers[key].staked.period == info.number && 0 < amount <= stakers[key].staked.total
    ensures var after := stakers[key].Unstake(amount, era, info.subperiod).0;
            var stakers' := AfterUnstake(stakers, key, after);
            var now := ReductionNow(stakers[key], amount, era);
            && StakersOk(era, info.number, stakers')
            && Sum(stakers', StakeOn(key.contract, info.number)) + amount == Sum(stakers, StakeOn(key.contract, info.number))
            && Sum(stakers', StakeNowOn(key.contract, info.number, era)) + now == Sum(stakers, StakeNowOn(key.contract, info.number, era))
  {
    var after := stakers[key].Unstake(amount, era, info.subperiod).0;
    var stakers' := AfterUnstake(stakers, key, after);
    UnstakeKeepsInfo(stakers[key], amount, era, info);
    SumReplace(stakers, key, stakers', StakeOn(key.contract, info.number));
    SumReplace(stakers, key, stakers', StakeNowOn(key.contract, info.number, era));
  }

  lemma UnstakedContractMatches(era: EraNumber, info: PeriodInfo, stakers: Stakers, key: StakerKey, amount: Balance, c: ContractStakeAmount)
    requires era >= 1 && info.number >= 1 && StakersOk(era, info.number, stakers) && ContractOk(era, info.number, c)
    requires ContractMatches(era, info.number, stakers, key.contract, c)
    requires key in stakers && stakers[key].staked.period == info.number && 0 < amount <= stakers[key].staked.total
    ensures var (after, pairs) := stakers[key].Unstake(amount, era, info.subperiod);
            ContractMatches(era, info.number, AfterUnstake(stakers, key, after), key.contract, c.Unstake(pairs, info, era))
  {
    var period := info.number;
    var (after, pairs) := stakers[key].Unstake(amount, era, info.subperiod);
    var stakers' := AfterUnstake(stakers, key, after);
    var now := ReductionNow(stakers[key], amount, era);
    UnstakeKeepsInfo(stakers[key], amount, era, info);
    UnstakeMovesSums(era, info, stakers, key, amount);
    NowWithinTotal(era, period, stakers', key.contract);
    SumCoversEntry(stakers, key, StakeOn(key.contract, period));
    var part := Sum(stakers, StakeNowOn(key.contract, period, era));
    UnstakeKeepsContract(c, now, amount, era, info, part);
    var c' := c.Unstake(pairs, info, era);
    if !Ahead(era, c') {
      forall k | k in stakers' && k.contract == key.contract && stakers'[k].staked.period == period
        ensures stakers'[k].staked.era <= era
      {
        if Ahead(era, c) {
          NoTotalNoEntry(era, period, stakers', key.contract, k);
        }
      }
    }
  }

  /** Unstaking takes at least as much out of the total of a contract as out of the entries
      on it, as far as it is there. */
  lemma UnstakedContractWithin(era: EraNumber, info: PeriodInfo, stakers: Stakers, key: StakerKey, amount: Balance, c: ContractStakeAmount)
    requires era >= 1 && info.number >= 1 && StakersOk(era, info.number, stakers) && ContractOk(era, info.number, c)
    requires ContractWithin(era, info.number, stakers, key.contract, c)
    requires key in stakers && stakers[key].staked.period == info.number && 0 < amount <= stakers[key].staked.total
    ensures var (after, pairs) := stakers[key].Unstake(amount, era, info.subperiod);
            ContractWithin(era, info.number, AfterUnstake(stakers, key, after), key.contract, c.Unstake(pairs, info, era))
  {
    var after := stakers[key].Unstake(amount, era, info.subperiod).0;
    var now := ReductionNow(stakers[key], amount, era);
    UnstakeKeepsInfo(stakers[key], amount, era, info);
    UnstakeMovesSums(era, info, stakers, key, amount);
    NowWithinTotal(era, info.number, AfterUnstake(stakers, key, after), key.contract);
    UnstakeShrinksContract(c, now, amount, era, info);
  }

  lemma UnstakeKeepsContracts(era: EraNumber, info: PeriodInfo, integrated: map<SmartContract, DAppId>, next: DAppId,
                              contracts: map<DAppId, ContractStakeAmount>, stakers: Stakers,
                              unregistered: map<SmartContract, PeriodNumber>, key: StakerKey, amount: Balance)
    requires era >= 1 && info.number >= 1 && key.contract in integrated
    requires IdsOk(integrated, next, contracts) && ContractEntriesOk(era, info.number, contracts)
    requires ContractsAgree(era, info.number, integrated, contracts, stakers, unregistered)
    requires StakersOk(era, info.number, stakers)
    requires key in stakers && stakers[key].staked.period == info.number && 0 < amount <= stakers[key].staked.total
    ensures var id := integrated[key.contract];
            var (after, pairs) := stakers[key].Unstake(amount, era, info.subperiod);
            var contracts' := contracts[id := ContractOf(contracts, id).Unstake(pairs, info, era)];
            && IdsOk(integrated, next, contracts') && ContractEntriesOk(era, info.number, contracts')
            && ContractsAgree(era, info.number, integrated, contracts', AfterUnstake(stakers, key, after), unregistered)
  {
    var c := ContractOf(contracts, integrated[key.contract]);
    var (after, pairs) := stakers[key].Unstake(amount, era, info.subperiod);
    UnstakeKeepsInfo(stakers[key], amount, era, info);
    UnstakeKeepsContractShape(c, ReductionNow(stakers[key], amount, era), amount, era, info);
    if Undisturbed(unregistered, info.number, key.contract) {
      UnstakedContractMatches(era, info, stakers, key, amount, c);
    }
    UnstakedContractWithin(era, info, stakers, key, amount, c);
    ReplaceContract(era, info.number, integrated, next, contracts, stakers, unregistered, key,
                    AfterUnstake(stakers, key, after), c.Unstake(pairs, info, era));
  }

  /** Removing an entry on an unregistered contract affects no registered one. */
  lemma RemovalKeepsContracts(era: EraNumber, period: PeriodNumber, integrated: map<SmartContract, DAppId>,
                              contracts: map<DAppId, ContractStakeAmount>, stakers: Stakers,
                              unregistered: map<SmartContract, PeriodNumber>, key: StakerKey)
    requires ContractsAgree(era, period, integrated, contracts, stakers, unregistered) && key.contract !in integrated
    ensures ContractsAgree(era, period, integrated, contracts, stakers - {key}, unregistered)
  {
    forall c | c in integrated
      ensures ContractSound(era, period, stakers - {key}, c, ContractOf(contracts, integrated[c]), Undisturbed(unregistered, period, c))
    {
      OtherContractIsSound(era, period, stakers, key, stakers - {key}, c, ContractOf(contracts, integrated[c]), Undisturbed(unregistered, period, c));
    }
  }

  lemma RegisterKeepsInv(cfg: Config, s: State, contract: SmartContract)
    requires Inv(cfg, s) && Register(cfg, s, contract).Done?
    ensures Inv(cfg, Register(cfg, s, contract).state)
  {
    var after := s.(integrated := s.integrated[contract := s.nextDAppId], nextDAppId := s.nextDAppId + 1);
    assert s.protocol.periodInfo.number >= 1 by { InvClock(cfg, s); }
    InvContracts(cfg, s);
    RegisteredIds(s.integrated, s.nextDAppId, s.contracts, contract);
    RegisterKeepsContracts(s.protocol.era, s.protocol.periodInfo.number, s.integrated, s.nextDAppId, s.contracts, s.stakers,
                           s.trace.unregistered, contract);
    assert Holds(Contracts, cfg, after);
    InvFrame(cfg, s, after);
  }

  /** Registering changes nothing but the contracts. */
  lemma InvFrame(cfg: Config, s: State, after: State)
    requires Inv(cfg, s) && ContractInv(after)
    requires after == s.(integrated := after.integrated, nextDAppId := after.nextDAppId, contracts := after.contracts,
                         trace := s.trace.(unregistered := after.trace.unregistered))
    ensures Inv(cfg, after)
  {
    InvParts(cfg, s);
    InvFromParts(cfg, after);
  }

  lemma RegisterKeepsContracts(era: EraNumber, period: PeriodNumber, integrated: map<SmartContract, DAppId>, next: DAppId,
                               contracts: map<DAppId, ContractStakeAmount>, stakers: Stakers,
                               unregistered: map<SmartContract, PeriodNumber>, contract: SmartContract)
    requires period >= 1 && next !in contracts && contract !in integrated
    requires ContractsAgree(era, period, integrated, contracts, stakers, unregistered)
    ensures ContractsAgree(era, period, integrated[contract := next], contracts, stakers, unregistered)
  {
    if Undisturbed(unregistered, period, contract) {
      SumOfZeros(stakers, StakeOn(contract, period));
    }
  }

  lemma RegisteredIds(integrated: map<SmartContract, DAppId>, next: DAppId, contracts: map<DAppId, ContractStakeAmount>, contract: SmartContract)
    requires IdsOk(integrated, next, contracts) && contract !in integrated
    ensures IdsOk(integrated[contract := next], next + 1, contracts) && next !in contracts
  {
    var integrated' := integrated[contract := next];
    forall id | id in contracts
      ensures exists c :: c in integrated' && integrated'[c] == id
    {
      var c :| c in integrated && integrated[c] == id;
      assert c in integrated' && integrated'[c] == id;
    }
  }

  lemma UnregisterKeepsInv(cfg: Config, s: State, contract: SmartContract)
    requires Inv(cfg, s) && Unregister(s, contract).Done?
    ensures Inv(cfg, Unregister(s, contract).state)
  {
    InvContracts(cfg, s);
    UnregisterKeepsContracts(s.protocol.era, s.protocol.periodInfo.number, s.integrated, s.nextDAppId, s.contracts, s.stakers,
                             s.trace.unregistered, contract);
    InvFrame(cfg, s, Unregister(s, contract).state);
  }

  lemma UnregisterKeepsContracts(era: EraNumber, period: PeriodNumber, integrated: map<SmartContract, DAppId>, next: DAppId,
                                 contracts: map<DAppId, ContractStakeAmount>, stakers: Stakers,
                                 unregistered: map<SmartContract, PeriodNumber>, contract: SmartContract)
    requires IdsOk(integrated, next, contracts) && contract in integrated && ContractEntriesOk(era, period, contracts)
    requires ContractsAgree(era, period, integrated, contracts, stakers, unregistered)
    ensures var contracts' := contracts - {integrated[contract]};
            && IdsOk(integrated - {contract}, next, contracts') && ContractEntriesOk(era, period, contracts')
            && ContractsAgree(era, period, integrated - {contract}, contracts', stakers, unregistered[contract := period])
  {
    var contracts' := contracts - {integrated[contract]};
    UnregisteredIds(integrated, next, contracts, contract);
    forall c | c in integrated - {contract}
      ensures ContractSound(era, period, stakers, c, ContractOf(contracts', integrated[c]), Undisturbed(unregistered[contract := period], period, c))
    {
      assert ContractOf(contracts', integrated[c]) == ContractOf(contracts, integrated[c]);
      assert ContractSound(era, period, stakers, c, ContractOf(contracts, integrated[c]), Undisturbed(unregistered, period, c));
    }
  }

  lemma UnregisteredIds(integrated: map<SmartContract, DAppId>, next: DAppId, contracts: map<DAppId, ContractStakeAmount>, contract: SmartContract)
    requires IdsOk(integrated, next, contracts) && contract in integrated
    ensures IdsOk(integrated - {contract}, next, contracts - {integrated[contract]})
  {
    var integrated' := integrated - {contract};
    forall id | id in contracts - {integrated[contract]}
      ensures exists c :: c in integrated' && integrated'[c] == id
    {
      var c :| c in integrated && integrated[c] == id;
      assert c in integrated' && integrated'[c] == id;
    }
  }

  /** A contract starts without a total whenever it is registered. That agrees with the
      entries on it exactly when none of the current period is left from an earlier
      registration. */
  lemma RegisteredTotalAgreesIff(cfg: Config, s: State, contract: SmartContract)
    requires Inv(cfg, s) && Register(cfg, s, contract).Done?
    ensures var after, period := Register(cfg, s, contract).state, s.protocol.periodInfo.number;
            ContractOf(after.contracts, after.integrated[contract]).TotalStaked(period) == Sum(after.stakers, StakeOn(contract, period))
            <==> forall k :: k in s.stakers && k.contract == contract ==> s.stakers[k].staked.period != period
  {
    InvClock(cfg, s);
    assert StakersOk(s.protocol.era, s.protocol.periodInfo.number, s.stakers) by { InvStakes(cfg, s); }
    assert s.nextDAppId !in s.contracts by { InvContracts(cfg, s); }
    NoStakeOnIff(s.protocol.era, s.protocol.periodInfo.number, s.stakers, contract);
  }

  lemma NoStakeOnIff(era: EraNumber, period: PeriodNumber, stakers: Stakers, contract: SmartContract)
    requires StakersOk(era, period, stakers)
    ensures Sum(stakers, StakeOn(contract, period)) == 0
            <==> forall k :: k in stakers && k.contract == contract ==> stakers[k].staked.period != period
  {
    if Sum(stakers, StakeOn(contract, period)) == 0 {
      forall k | k in stakers && k.contract == contract
        ensures stakers[k].staked.period != period
      {
        NoTotalNoEntry(era, period, stakers, contract, k);
      }
    } else if forall k :: k in stakers && k.contract == contract ==> stakers[k].staked.period != period {
      SumOfZeros(stakers, StakeOn(contract, period));
    }
  }
}
