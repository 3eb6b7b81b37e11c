/** Collator selection with its storage items as fields; every call is a method proved
    against the function of the same name. */
module CollatorPallet {
  import opened Arithmetic
  import opened StakeTypes
  import opened Collators

  class CollatorSelection {
    const settings: Settings
    var candidates: seq<CandidateInfo>
    var nonCandidates: map<AccountId, (SessionIndex, Balance)>
    var lastAuthored: map<AccountId, BlockNumber>
    var free: map<AccountId, Balance>
    var reserved: map<AccountId, Balance>
    var burned: Balance
    var invulnerables: set<AccountId>
    var desiredCandidates: nat
    var candidacyBond: Balance
    var slashDestination: Option<AccountId>

    function View(): Book
      reads this
    {
      Book(candidates, nonCandidates, lastAuthored, free, reserved, burned, invulnerables, desiredCandidates, candidacyBond, slashDestination)
    }

    constructor (st: Settings, balances: map<AccountId, Balance>, invulnerable: set<AccountId>, bond: Balance, desired: nat)
      ensures settings == st
      ensures View() == Book([], map[], map[], balances, map[], 0, invulnerable, desired, bond, None)
    {
      settings := st;
      candidates, nonCandidates, lastAuthored := [], map[], map[];
      free, reserved, burned := balances, map[], 0;
      invulnerables, desiredCandidates, candidacyBond, slashDestination := invulnerable, desired, bond, None;
    }

    /** `outcome` is what happened: an error and no change since `before`, or the new state. */
    predicate Happened(outcome: Outcome, before: Book, error: Option<Error>)
      reads this
    {
      match outcome
      case Failed(e) => error == Some(e) && View() == before
      case Done(after) => error == None && View() == after
    }

    // ---------- currency ----------

    method Unreserve(who: AccountId, amount: Balance)
      modifies this`free, this`reserved
      ensures View() == Collators.Unreserve(old(View()), who, amount)
    {
      var actual := Min(amount, Of(reserved, who));
      free := free[who := Of(free, who) + actual];
      reserved := reserved[who := Of(reserved, who) - actual];
    }

    method SlashReserved(who: AccountId, amount: Balance)
      modifies this`free, this`reserved, this`burned
      ensures View() == Collators.SlashReserved(old(View()), who, amount)
    {
      var actual := Min(amount, Of(reserved, who));
      reserved := reserved[who := Of(reserved, who) - actual];
      if slashDestination.Some? {
        var destination := slashDestination.value;
        free := free[destination := Of(free, destination) + actual];
      } else {
        burned := burned + actual;
      }
    }

    // ---------- calls ----------

    /** The position of an account among the candidates, if it is one. */
    method FindCandidate(who: AccountId) returns (index: Option<nat>)
      ensures index.Some? <==> IsCandidate(candidates, who)
      ensures index.Some? ==> index.value == Position(candidates, who)
    {
      var i := 0;
      while i < |candidates|
        invariant 0 <= i <= |candidates|
        invariant forall k :: 0 <= k < i ==> candidates[k].who != who
      {
        if candidates[i].who == who {
          PositionIs(candidates, who, i);
          return Some(i);
        }
        i := i + 1;
      }
      return None;
    }

    method RegisterAsCandidate(who: AccountId, allowed: bool, validator: Validator, session: SessionIndex, now: BlockNumber)
      returns (error: Option<Error>)
      modifies this
      ensures Happened(Collators.RegisterAsCandidate(settings, old(View()), who, allowed, validator, session, now), old(View()), error)
    {
      if |candidates| >= desiredCandidates {
        return Some(TooManyCandidates);
      }
      if who in invulnerables {
        return Some(AlreadyInvulnerable);
      }
      if !allowed {
        return Some(NotAllowedCandidate);
      }
      if validator == NoValidatorId {
        return Some(NoAssociatedValidatorId);
      }
      if validator == Unregistered {
        return Some(ValidatorNotRegistered);
      }
      if who in nonCandidates && session < nonCandidates[who].0 {
        return Some(BondStillLocked);
      }
      var existing := FindCandidate(who);
      if existing.Some? {
        return Some(AlreadyCandidate);
      }
      var available := Of(free, who) + if who in nonCandidates then Min(nonCandidates[who].1, Of(reserved, who)) else 0;
      if available < candidacyBond {
        return Some(InsufficientBalance);
      }
      if who in nonCandidates {
        var deposit := nonCandidates[who].1;
        nonCandidates := nonCandidates - {who};
        Unreserve(who, deposit);
      }
      assert View() == ReleaseUnbonded(old(View()), who);
      AddCandidate(who, now);
      return None;
    }

    method AddCandidate(who: AccountId, now: BlockNumber)
      requires candidacyBond <= Of(free, who)
      modifies this
      ensures View() == Reserve(old(View()), who, old(candidacyBond)).(
                          candidates := old(candidates) + [CandidateInfo(who, old(candidacyBond))],
                          lastAuthored := old(lastAuthored)[who := now + settings.kickThreshold])
    {
      free := free[who := Of(free, who) - candidacyBond];
      reserved := reserved[who := Of(reserved, who) + candidacyBond];
      candidates := candidates + [CandidateInfo(who, candidacyBond)];
      lastAuthored := lastAuthored[who := now + settings.kickThreshold];
    }

    method TryRemoveCandidate(who: AccountId, session: SessionIndex) returns (removed: bool)
      modifies this`candidates, this`nonCandidates
      ensures removed == IsCandidate(old(candidates), who)
      ensures View() == if removed then RemoveCandidate(old(View()), who, session) else old(View())
    {
      var index := FindCandidate(who);
      removed := index.Some?;
      if removed {
        var candidate := candidates[index.value];
        candidates := candidates[..index.value] + candidates[index.value + 1..];
        nonCandidates := nonCandidates[who := (session + 1, candidate.deposit)];
      }
    }

    method LeaveIntent(who: AccountId, session: SessionIndex) returns (error: Option<Error>)
      modifies this
      ensures Happened(Collators.LeaveIntent(settings, old(View()), who, session), old(View()), error)
    {
      if |candidates| <= settings.minCandidates {
        return Some(TooFewCandidates);
      }
      var removed := TryRemoveCandidate(who, session);
      return if removed then None else Some(NotCandidate);
    }

    method WithdrawBond(who: AccountId, session: SessionIndex) returns (error: Option<Error>)
      modifies this
      ensures Happened(Collators.WithdrawBond(old(View()), who, session), old(View()), error)
    {
      if who !in nonCandidates {
        return Some(NoCandidacyBond);
      }
      var (index, deposit) := nonCandidates[who];
      if session < index {
        return Some(BondStillLocked);
      }
      nonCandidates := nonCandidates - {who};
      Unreserve(who, deposit);
      lastAuthored := lastAuthored - {who};
      return None;
    }

    method SlashNonCandidate(who: AccountId)
      modifies this
      ensures View() == Collators.SlashNonCandidate(settings, old(View()), who)
    {
      if who !in nonCandidates {
        return;
      }
      var deposit := nonCandidates[who].1;
      nonCandidates := nonCandidates - {who};
      var slash := MulNearest(PERBILL, settings.slashRatio, deposit);
      var remain := SatSub(deposit, slash);
      SlashReserved(who, slash);
      Unreserve(who, remain);
      lastAuthored := lastAuthored - {who};
    }

    method KickOne(who: AccountId, session: SessionIndex, now: BlockNumber)
      modifies this
      ensures View() == Collators.KickOne(settings, old(View()), who, session, now)
    {
      if who !in lastAuthored || SatSub(now, lastAuthored[who]) < settings.kickThreshold {
        return;
      }
      var candidate := FindCandidate(who);
      if candidate.Some? {
        if |candidates| > settings.minCandidates {
          var _ := TryRemoveCandidate(who, session);
          SlashNonCandidate(who);
        }
      } else if who in nonCandidates {
        if session > nonCandidates[who].0 {
          lastAuthored := lastAuthored - {who};
        } else {
          SlashNonCandidate(who);
        }
      }
    }

    /** The loop over all tracked accounts, in whatever order the storage yields them. */
    method KickStaleCandidates(session: SessionIndex, now: BlockNumber) returns (before: nat, kicked: nat, ghost order: seq<AccountId>)
      modifies this
      ensures forall a :: a in order <==> a in old(lastAuthored)
      ensures |order| == |old(lastAuthored.Keys)|
      ensures View() == Kick(settings, old(View()), order, session, now)
      ensures before == |old(candidates)| && kicked == SatSub(before, |candidates|)
    {
      before := |candidates|;
      order := [];
      var rest := lastAuthored.Keys;
      while rest != {}
        invariant forall a :: a in order || a in rest <==> a in old(lastAuthored)
        invariant |order| + |rest| == |old(lastAuthored.Keys)|
        invariant View() == Kick(settings, old(View()), order, session, now)
        decreases |rest|
      {
        var who :| who in rest;
        rest := rest - {who};
        KickOne(who, session, now);
        assert (order + [who])[..|order|] == order;
        order := order + [who];
      }
      kicked := SatSub(before, |candidates|);
    }

    method NoteAuthor(author: AccountId, now: BlockNumber)
      modifies this`lastAuthored
      ensures View() == Collators.NoteAuthor(old(View()), author, now)
    {
      lastAuthored := lastAuthored[author := now];
    }
  }

  lemma {:induction false} PositionIs(candidates: seq<CandidateInfo>, who: AccountId, i: nat)
    requires i < |candidates| && candidates[i].who == who && forall k :: 0 <= k < i ==> candidates[k].who != who
    ensures IsCandidate(candidates, who) && Position(candidates, who) == i
    decreases |candidates|
  {
    if i > 0 {
      PositionIs(candidates[1..], who, i - 1);
    }
  }
}
