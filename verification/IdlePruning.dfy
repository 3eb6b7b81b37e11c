/** The pruning of the reward history comes to an end: after enough idle passes nothing that
    has expired is left. */
module IdlePruning {
  import opened Arithmetic
  import opened StakeTypes
  import opened RewardHistory
  import opened TierAssignment
  import opened Protocol
  import opened Invariant
  import opened EraSteps
  import opened Runs

  /** The state after `passes` calls of `on_idle` with enough weight. */
  function Idle(cfg: Config, s: State, passes: nat): State
    decreases passes
  {
    if passes == 0 then s else OnIdle(cfg, Idle(cfg, s, passes - 1), true)
  }

  ghost predicate SpansPruned(spans: Spans, oldest: EraNumber) {
    forall k :: k in spans ==> spans[k].lastEra >= oldest
  }

  ghost predicate TiersPruned(tiers: map<EraNumber, DAppTierRewards>, oldest: EraNumber) {
    forall x :: x in tiers ==> x >= oldest
  }

  /** Every pass moves both markers on, unless there is nothing left for them. */
  ghost predicate Progress(s: State, t: State, passes: nat) {
    && t == s.(spans := t.spans, dappTiers := t.dappTiers, marker := t.marker) && t.marker.oldestValidEra == s.marker.oldestValidEra
    && t.marker.dappTiersIndex >= Min(passes, s.marker.oldestValidEra)
    && (SpansPruned(t.spans, s.marker.oldestValidEra) || t.marker.eraRewardIndex >= Min(passes, s.marker.oldestValidEra))
  }

  /** Spans from the oldest valid era on are all to be kept. */
  lemma LaterSpansAreKept(length: nat, era: EraNumber, spans: Spans, index: EraNumber, history: History, oldest: EraNumber)
    requires length > 0 && SpansOk(length, era, spans, index, history) && oldest <= index
    ensures SpansPruned(spans, oldest)
  {
    forall k | k in spans
      ensures spans[k].lastEra >= oldest
    {
      assert SpanOk(length, era, k, spans[k], history);
    }
  }

  /** A span that is to be kept at the marker means that all of them are. */
  lemma KeptSpanMeansPruned(length: nat, era: EraNumber, spans: Spans, index: EraNumber, history: History, oldest: EraNumber)
    requires length > 0 && SpansOk(length, era, spans, index, history) && index in spans && spans[index].lastEra >= oldest
    ensures SpansPruned(spans, oldest)
  {
    assert SpanOk(length, era, index, spans[index], history);
    forall k | k in spans
      ensures spans[k].lastEra >= oldest
    {
      assert SpanOk(length, era, k, spans[k], history);
    }
  }

  lemma PassMovesSpans(length: nat, era: EraNumber, spans: Spans, index: EraNumber, history: History, oldest: EraNumber)
    requires length > 0 && SpansOk(length, era, spans, index, history)
    ensures var (spans', index') := PruneSpans(length, spans, index, oldest);
            SpansPruned(spans', oldest) || index' >= index + 1
    ensures SpansPruned(spans, oldest) ==> SpansPruned(PruneSpans(length, spans, index, oldest).0, oldest)
  {
    if index >= oldest {
      LaterSpansAreKept(length, era, spans, index, history, oldest);
    } else if index in spans && spans[index].lastEra >= oldest {
      KeptSpanMeansPruned(length, era, spans, index, history, oldest);
    }
  }

  lemma PassProgresses(cfg: Config, s: State, t: State, passes: nat)
    requires Inv(cfg, t) && Progress(s, t, passes)
    ensures Progress(s, OnIdle(cfg, t, true), passes + 1)
  {
    InvSpans(cfg, t);
    InvEnds(cfg, t);
    var oldest := t.marker.oldestValidEra;
    PassMovesSpans(cfg.eraRewardSpanLength, t.protocol.era, t.spans, t.marker.eraRewardIndex, t.trace.rewards, oldest);
  }

  lemma {:induction false} PassesProgress(cfg: Config, s: State, passes: nat)
    requires Inv(cfg, s)
    ensures Inv(cfg, Idle(cfg, s, passes)) && Progress(s, Idle(cfg, s, passes), passes)
    decreases passes
  {
    if passes > 0 {
      PassesProgress(cfg, s, passes - 1);
      OnIdleKeepsInv(cfg, Idle(cfg, s, passes - 1), true);
      PassProgresses(cfg, s, Idle(cfg, s, passes - 1), passes - 1);
    }
  }

  /** After as many passes as there are expired eras, no expired span and no expired tier
      assignment is left, and nothing else has changed. */
  lemma PruningCompletes(cfg: Config, s: State, passes: nat)
    requires Reachable(cfg, s) && passes >= s.marker.oldestValidEra
    ensures var t, oldest := Idle(cfg, s, passes), s.marker.oldestValidEra;
            && SpansPruned(t.spans, oldest) && TiersPruned(t.dappTiers, oldest)
            && t == s.(spans := t.spans, dappTiers := t.dappTiers, marker := t.marker)
  {
    ReachableIsOk(cfg, s);
    PassesProgress(cfg, s, passes);
    var t := Idle(cfg, s, passes);
    InvTiers(cfg, t);
    InvSpans(cfg, t);
    if t.marker.eraRewardIndex >= s.marker.oldestValidEra {
      LaterSpansAreKept(cfg.eraRewardSpanLength, t.protocol.era, t.spans, t.marker.eraRewardIndex, t.trace.rewards, s.marker.oldestValidEra);
    }
  }
}
