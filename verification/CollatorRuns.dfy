/** Bonds stay backed and money is conserved in every run of collator selection, and what
    kicking stale candidates achieves, for any iteration order. */
module CollatorRuns {
  import opened Arithmetic
  import opened StakeTypes
  import opened Collators

  // ---------- currency ----------

  lemma ReserveKeepsFunds(b: Book, who: AccountId, amount: Balance)
    requires amount <= Of(b.free, who)
    ensures TotalFunds(Reserve(b, who, amount)) == TotalFunds(b)
  {
    MoveKeepsFunds(b.free, who, Of(b.free, who) - amount);
    MoveKeepsFunds(b.reserved, who, Of(b.reserved, who) + amount);
  }

  lemma UnreserveKeepsFunds(b: Book, who: AccountId, amount: Balance)
    ensures TotalFunds(Unreserve(b, who, amount)) == TotalFunds(b)
  {
    var actual := Min(amount, Of(b.reserved, who));
    MoveKeepsFunds(b.free, who, Of(b.free, who) + actual);
    MoveKeepsFunds(b.reserved, who, Of(b.reserved, who) - actual);
  }

  lemma SlashKeepsFunds(b: Book, who: AccountId, amount: Balance)
    ensures TotalFunds(SlashReserved(b, who, amount)) == TotalFunds(b)
  {
    var actual := Min(amount, Of(b.reserved, who));
    MoveKeepsFunds(b.reserved, who, Of(b.reserved, who) - actual);
    if b.slashDestination.Some? {
      MoveKeepsFunds(b.free, b.slashDestination.value, Of(b.free, b.slashDestination.value) + actual);
    }
  }

  // ---------- single calls ----------

  lemma UnbondingDeposit(b: Book, who: AccountId)
    requires BookOk(b) && who in b.nonCandidates
    ensures !IsCandidate(b.candidates, who) && Of(b.reserved, who) == b.nonCandidates[who].1
  {
    NoDeposit(b.candidates, who);
  }

  /** Releasing an un-bonded deposit returns exactly that deposit. */
  lemma ReleaseIsExact(b: Book, who: AccountId)
    requires BookOk(b)
    ensures var after := ReleaseUnbonded(b, who);
            && BookOk(after) && TotalFunds(after) == TotalFunds(b)
            && (who in b.nonCandidates ==>
                  && Of(after.free, who) == Of(b.free, who) + b.nonCandidates[who].1 && Of(after.reserved, who) == 0)
            && after.candidates == b.candidates && after.lastAuthored == b.lastAuthored && who !in after.nonCandidates
  {
    if who in b.nonCandidates {
      UnbondingDeposit(b, who);
      var after := ReleaseUnbonded(b, who);
      UnreserveKeepsFunds(b.(nonCandidates := b.nonCandidates - {who}), who, b.nonCandidates[who].1);
      forall a: AccountId
        ensures Of(after.reserved, a) == Deposit(after, a)
      {
        assert Of(b.reserved, a) == Deposit(b, a);
      }
    }
  }

  lemma RegisterKeepsOk(st: Settings, b: Book, who: AccountId, allowed: bool, validator: Validator, session: SessionIndex, now: BlockNumber)
    requires BookOk(b) && RegisterAsCandidate(st, b, who, allowed, validator, session, now).Done?
    ensures var after := RegisterAsCandidate(st, b, who, allowed, validator, session, now).book;
            BookOk(after) && TotalFunds(after) == TotalFunds(b) && Of(after.reserved, who) == b.candidacyBond
  {
    var released := ReleaseUnbonded(b, who);
    var after := RegisterAsCandidate(st, b, who, allowed, validator, session, now).book;
    ReleaseIsExact(b, who);
    NoDeposit(b.candidates, who);
    ReserveKeepsFunds(released, who, b.candidacyBond);
    forall a: AccountId
      ensures Of(after.reserved, a) == Deposit(after, a)
    {
      assert Of(released.reserved, a) == Deposit(released, a);
      AppendedDeposit(b.candidates, CandidateInfo(who, b.candidacyBond), a);
    }
  }

  /** A new candidate is listed last, has its bond taken from its free balance, and cannot be
      kicked before two kick thresholds have passed. */
  lemma RegisteredCandidateIsListed(st: Settings, b: Book, who: AccountId, allowed: bool, validator: Validator, session: SessionIndex,
                                    now: BlockNumber, block: BlockNumber)
    requires BookOk(b) && RegisterAsCandidate(st, b, who, allowed, validator, session, now).Done?
    ensures var after := RegisterAsCandidate(st, b, who, allowed, validator, session, now).book;
            && after.candidates == b.candidates + [CandidateInfo(who, b.candidacyBond)] && who !in after.nonCandidates
            && Of(after.free, who) + b.candidacyBond == Of(b.free, who) + Of(b.reserved, who)
            && (st.kickThreshold > 0 ==> (IsStale(st, after, who, block) <==> block >= now + 2 * st.kickThreshold))
  {
    ReleaseIsExact(b, who);
    NoDeposit(b.candidates, who);
    assert Of(b.reserved, who) == Deposit(b, who);
  }

  /** Who is refused: everybody while there are enough candidates, an invulnerable, an account
      that is not allowed or not registered for the session, one whose last bond is still
      locked, a candidate, and whoever cannot pay the bond even with the last one released. */
  lemma RegisterSucceedsIff(st: Settings, b: Book, who: AccountId, allowed: bool, validator: Validator, session: SessionIndex, now: BlockNumber)
    requires BookOk(b)
    ensures RegisterAsCandidate(st, b, who, allowed, validator, session, now).Done? <==>
              && |b.candidates| < b.desiredCandidates && who !in b.invulnerables && allowed && validator == Registered
              && (who in b.nonCandidates ==> b.nonCandidates[who].0 <= session) && !IsCandidate(b.candidates, who)
              && b.candidacyBond <= Of(b.free, who) + Of(b.reserved, who)
  {
    ReleaseIsExact(b, who);
    if !IsCandidate(b.candidates, who) {
      NoDeposit(b.candidates, who);
      assert Of(b.reserved, who) == Deposit(b, who);
    }
  }

  /** The bond of a candidate that left in a session can be withdrawn from the next one on. */
  lemma LeftBondIsLocked(st: Settings, b: Book, who: AccountId, session: SessionIndex, later: SessionIndex)
    requires BookOk(b) && LeaveIntent(st, b, who, session).Done?
    ensures var after := LeaveIntent(st, b, who, session).book;
            && (WithdrawBond(after, who, later).Done? <==> session < later)
            && (session < later ==> Of(WithdrawBond(after, who, later).book.free, who) == Of(b.free, who) + Of(b.reserved, who))
  {
    RemoveKeepsOk(b, who, session);
    var after := LeaveIntent(st, b, who, session).book;
    ReleaseIsExact(after, who);
  }

  lemma RemoveKeepsOk(b: Book, who: AccountId, session: SessionIndex)
    requires BookOk(b) && IsCandidate(b.candidates, who)
    ensures var after := RemoveCandidate(b, who, session);
            && BookOk(after) && TotalFunds(after) == TotalFunds(b) && |after.candidates| + 1 == |b.candidates|
            && !IsCandidate(after.candidates, who) && who in after.nonCandidates
            && after.nonCandidates[who] == (session + 1, Of(b.reserved, who))
            && (forall a :: IsCandidate(after.candidates, a) ==> IsCandidate(b.candidates, a))
  {
    var i := Position(b.candidates, who);
    var after := RemoveCandidate(b, who, session);
    RemovedIsGone(b.candidates, i);
    RemovedDeposit(b.candidates, i, who);
    NoDeposit(after.candidates, who);
    assert Of(b.reserved, who) == Deposit(b, who);
    StillListed(b.candidates, i);
    forall a: AccountId
      ensures Of(after.reserved, a) == Deposit(after, a)
    {
      assert Of(b.reserved, a) == Deposit(b, a);
      RemovedDeposit(b.candidates, i, a);
    }
  }

  lemma StillListed(candidates: seq<CandidateInfo>, i: nat)
    requires i < |candidates|
    ensures forall k :: 0 <= k < |candidates| - 1 ==> Without(candidates, i)[k] in candidates
    ensures forall a :: IsCandidate(Without(candidates, i), a) ==> IsCandidate(candidates, a)
  {
    var rest := Without(candidates, i);
    forall k | 0 <= k < |rest|
      ensures rest[k] == candidates[if k < i then k else k + 1]
    {
    }
    forall a | IsCandidate(rest, a)
      ensures IsCandidate(candidates, a)
    {
      var k :| 0 <= k < |rest| && rest[k].who == a;
      assert candidates[if k < i then k else k + 1].who == a;
    }
  }

  lemma WithdrawKeepsOk(b: Book, who: AccountId, session: SessionIndex)
    requires BookOk(b) && WithdrawBond(b, who, session).Done?
    ensures var after := WithdrawBond(b, who, session).book;
            && BookOk(after) && TotalFunds(after) == TotalFunds(b)
            && Of(after.free, who) == Of(b.free, who) + b.nonCandidates[who].1 && Of(after.reserved, who) == 0
  {
    ReleaseIsExact(b, who);
    UnbondingDeposit(b, who);
  }

  /** Slashing splits exactly the deposit: a part goes to the slash destination or is burned,
      the rest is returned. */
  lemma SlashIsExact(st: Settings, b: Book, who: AccountId)
    requires BookOk(b) && st.slashRatio <= PERBILL
    ensures var after := SlashNonCandidate(st, b, who);
            && BookOk(after) && TotalFunds(after) == TotalFunds(b) && after.candidates == b.candidates
            && (who in b.nonCandidates ==>
                  && Of(after.reserved, who) == 0 && who !in after.nonCandidates && who !in after.lastAuthored
                  && var deposit, slash := b.nonCandidates[who].1, MulNearest(PERBILL, st.slashRatio, b.nonCandidates[who].1);
                     && slash <= deposit
                     && after.burned == b.burned + (if b.slashDestination.None? then slash else 0)
                     && Of(after.free, who) == Of(b.free, who) + deposit - slash + (if b.slashDestination == Some(who) then slash else 0)
                     && (b.slashDestination.Some? && b.slashDestination.value != who ==>
                           Of(after.free, b.slashDestination.value) == Of(b.free, b.slashDestination.value) + slash))
  {
    if who in b.nonCandidates {
      var deposit := b.nonCandidates[who].1;
      MulNearestAtMost(PERBILL, st.slashRatio, deposit);
      SplitDeposit(b, who, MulNearest(PERBILL, st.slashRatio, deposit));
    }
  }

  function Split(b: Book, who: AccountId, deposit: Balance, slash: Balance): Book {
    var slashed := SlashReserved(b.(nonCandidates := b.nonCandidates - {who}), who, slash);
    Unreserve(slashed, who, SatSub(deposit, slash)).(lastAuthored := b.lastAuthored - {who})
  }

  lemma SplitDeposit(b: Book, who: AccountId, slash: Balance)
    requires BookOk(b) && who in b.nonCandidates && slash <= b.nonCandidates[who].1
    ensures var deposit := b.nonCandidates[who].1;
            var after := Split(b, who, deposit, slash);
            && BookOk(after) && TotalFunds(after) == TotalFunds(b) && after.candidates == b.candidates
            && Of(after.reserved, who) == 0
            && after.burned == b.burned + (if b.slashDestination.None? then slash else 0)
            && Of(after.free, who) == Of(b.free, who) + deposit - slash + (if b.slashDestination == Some(who) then slash else 0)
            && (b.slashDestination.Some? && b.slashDestination.value != who ==>
                  Of(after.free, b.slashDestination.value) == Of(b.free, b.slashDestination.value) + slash)
  {
    UnbondingDeposit(b, who);
    SplitKeepsFunds(b, who, b.nonCandidates[who].1, slash);
    SplitKeepsBacked(b, who, slash);
  }

  lemma SplitKeepsFunds(b: Book, who: AccountId, deposit: Balance, slash: Balance)
    ensures TotalFunds(Split(b, who, deposit, slash)) == TotalFunds(b)
  {
    var open := b.(nonCandidates := b.nonCandidates - {who});
    SlashKeepsFunds(open, who, slash);
    UnreserveKeepsFunds(SlashReserved(open, who, slash), who, SatSub(deposit, slash));
  }

  lemma SplitKeepsBacked(b: Book, who: AccountId, slash: Balance)
    requires BookOk(b) && who in b.nonCandidates && slash <= b.nonCandidates[who].1
    ensures BookOk(Split(b, who, b.nonCandidates[who].1, slash))
  {
    var after := Split(b, who, b.nonCandidates[who].1, slash);
    UnbondingDeposit(b, who);
    forall a: AccountId
      ensures Of(after.reserved, a) == Deposit(after, a)
    {
      assert Of(b.reserved, a) == Deposit(b, a);
    }
  }

  // ---------- kicking ----------

  /** Candidates only leave, not below the minimum, and the others stay tracked as before. */
  ghost predicate Shrinks(st: Settings, b: Book, after: Book) {
    && Min(|b.candidates|, st.minCandidates) <= |after.candidates| <= |b.candidates|
    && forall a :: IsCandidate(after.candidates, a) ==>
         && IsCandidate(b.candidates, a)
         && a in b.lastAuthored && a in after.lastAuthored && after.lastAuthored[a] == b.lastAuthored[a]
  }

  /** `who` is not a stale candidate, unless the minimum is reached. */
  predicate Cleared(st: Settings, b: Book, who: AccountId, now: BlockNumber) {
    IsCandidate(b.candidates, who) && IsStale(st, b, who, now) ==> |b.candidates| <= st.minCandidates
  }

  lemma ClearedStays(st: Settings, b: Book, after: Book, who: AccountId, now: BlockNumber)
    requires Shrinks(st, b, after) && Cleared(st, b, who, now)
    ensures Cleared(st, after, who, now)
  {
  }

  lemma ShrinksOnly(st: Settings, b: Book)
    requires Listed(b)
    ensures Shrinks(st, b, b)
  {
  }

  lemma ShrinksFurther(st: Settings, b: Book, c: Book, d: Book)
    requires Shrinks(st, b, c) && Shrinks(st, c, d)
    ensures Shrinks(st, b, d)
  {
  }

  /** Kicking a candidate moves and slashes its bond. */
  lemma KickCandidate(st: Settings, b: Book, who: AccountId, session: SessionIndex)
    requires BookOk(b) && st.slashRatio <= PERBILL && IsCandidate(b.candidates, who) && |b.candidates| > st.minCandidates
    ensures var after := SlashNonCandidate(st, RemoveCandidate(b, who, session), who);
            && BookOk(after) && TotalFunds(after) == TotalFunds(b) && Shrinks(st, b, after) && !IsCandidate(after.candidates, who)
  {
    RemoveKeepsOk(b, who, session);
    var removed := RemoveCandidate(b, who, session);
    SlashIsExact(st, removed, who);
    KeepsTracking(b, SlashNonCandidate(st, removed, who), who);
  }

  lemma KeepsTracking(b: Book, after: Book, who: AccountId)
    requires Listed(b) && (forall a :: IsCandidate(after.candidates, a) ==> IsCandidate(b.candidates, a) && a != who)
    requires after.lastAuthored == b.lastAuthored - {who}
    ensures forall a :: IsCandidate(after.candidates, a) ==>
              a in b.lastAuthored && a in after.lastAuthored && after.lastAuthored[a] == b.lastAuthored[a]
  {
  }

  /** A step keeps everything in order, only removes candidates, and clears `who`. */
  lemma KickOneOutcome(st: Settings, b: Book, who: AccountId, session: SessionIndex, now: BlockNumber)
    requires BookOk(b) && st.slashRatio <= PERBILL
    ensures var after := KickOne(st, b, who, session, now);
            && BookOk(after) && TotalFunds(after) == TotalFunds(b) && Shrinks(st, b, after) && Cleared(st, after, who, now)
  {
    ShrinksOnly(st, b);
    if IsStale(st, b, who, now) {
      if IsCandidate(b.candidates, who) {
        if |b.candidates| > st.minCandidates {
          KickCandidate(st, b, who, session);
        }
      } else if who in b.nonCandidates {
        KickUnbonding(st, b, who, session);
      }
    }
  }

  lemma KickUnbonding(st: Settings, b: Book, who: AccountId, session: SessionIndex)
    requires BookOk(b) && st.slashRatio <= PERBILL && who in b.nonCandidates
    ensures var after := if session > b.nonCandidates[who].0 then b.(lastAuthored := b.lastAuthored - {who}) else SlashNonCandidate(st, b, who);
            && BookOk(after) && TotalFunds(after) == TotalFunds(b) && Shrinks(st, b, after) && !IsCandidate(after.candidates, who)
  {
    UnbondingDeposit(b, who);
    SlashIsExact(st, b, who);
    if session > b.nonCandidates[who].0 {
      KeepsTracking(b, b.(lastAuthored := b.lastAuthored - {who}), who);
    } else {
      KeepsTracking(b, SlashNonCandidate(st, b, who), who);
    }
  }

  /** Kicking in any order keeps the bonds backed and the money together, and never goes below
      the minimum. */
  lemma {:induction false} KickOutcome(st: Settings, b: Book, order: seq<AccountId>, session: SessionIndex, now: BlockNumber)
    requires BookOk(b) && st.slashRatio <= PERBILL
    ensures var after := Kick(st, b, order, session, now);
            BookOk(after) && TotalFunds(after) == TotalFunds(b) && Shrinks(st, b, after)
    decreases |order|
  {
    if |order| == 0 {
      ShrinksOnly(st, b);
    } else {
      var n := |order| - 1;
      KickOutcome(st, b, order[..n], session, now);
      KickOneOutcome(st, Kick(st, b, order[..n], session, now), order[n], session, now);
      ShrinksFurther(st, b, Kick(st, b, order[..n], session, now), Kick(st, b, order, session, now));
    }
  }

  /** Every visited account is cleared. */
  lemma {:induction false} KickClears(st: Settings, b: Book, order: seq<AccountId>, session: SessionIndex, now: BlockNumber, i: nat)
    requires BookOk(b) && st.slashRatio <= PERBILL && i < |order|
    ensures Cleared(st, Kick(st, b, order, session, now), order[i], now)
    decreases |order|
  {
    var n := |order| - 1;
    var before := Kick(st, b, order[..n], session, now);
    KickOutcome(st, b, order[..n], session, now);
    if i < n {
      KickClears(st, b, order[..n], session, now, i);
    }
    LastKickClears(st, before, order[n], session, now, order[i], i < n);
  }

  lemma LastKickClears(st: Settings, b: Book, last: AccountId, session: SessionIndex, now: BlockNumber, who: AccountId, earlier: bool)
    requires BookOk(b) && st.slashRatio <= PERBILL && (if earlier then Cleared(st, b, who, now) else who == last)
    ensures Cleared(st, KickOne(st, b, last, session, now), who, now)
  {
    KickOneOutcome(st, b, last, session, now);
    if earlier {
      ClearedStays(st, b, KickOne(st, b, last, session, now), who, now);
    }
  }

  /** After the loop over all tracked accounts, in any order, no candidate is stale or at most
      the minimum number of candidates remains. */
  lemma NoStaleCandidateRemains(st: Settings, b: Book, order: seq<AccountId>, session: SessionIndex, now: BlockNumber, who: AccountId)
    requires BookOk(b) && st.slashRatio <= PERBILL && (forall a :: a in b.lastAuthored ==> a in order)
    ensures var after := Kick(st, b, order, session, now);
            IsCandidate(after.candidates, who) && IsStale(st, after, who, now) ==> |after.candidates| <= st.minCandidates
  {
    KickOutcome(st, b, order, session, now);
    var after := Kick(st, b, order, session, now);
    if IsCandidate(after.candidates, who) {
      assert who in order;
      var i :| 0 <= i < |order| && order[i] == who;
      KickClears(st, b, order, session, now, i);
    }
  }

  /** A stale candidate that is kicked loses the configured part of its bond, to the slash
      destination or for good, and gets the rest back at once. */
  lemma KickedCandidateIsSlashed(st: Settings, b: Book, who: AccountId, session: SessionIndex, now: BlockNumber)
    requires BookOk(b) && st.slashRatio <= PERBILL && b.slashDestination != Some(who)
    requires IsStale(st, b, who, now) && IsCandidate(b.candidates, who) && |b.candidates| > st.minCandidates
    ensures var after, bond := KickOne(st, b, who, session, now), Of(b.reserved, who);
            var slash := MulNearest(PERBILL, st.slashRatio, bond);
            && !IsCandidate(after.candidates, who) && who !in after.nonCandidates && Of(after.reserved, who) == 0
            && slash <= bond && Of(after.free, who) == Of(b.free, who) + bond - slash
            && match b.slashDestination
               case None => after.burned == b.burned + slash
               case Some(destination) => after.burned == b.burned && Of(after.free, destination) == Of(b.free, destination) + slash
  {
    RemoveKeepsOk(b, who, session);
    SlashIsExact(st, RemoveCandidate(b, who, session), who);
  }

  /** `who` has left, and its bond was unlocked in an earlier session. */
  predicate Withdrawable(b: Book, who: AccountId, session: SessionIndex, entry: (SessionIndex, Balance), reserved: Balance) {
    && !IsCandidate(b.candidates, who) && who in b.nonCandidates && b.nonCandidates[who] == entry && entry.0 < session
    && Of(b.reserved, who) == reserved
  }

  lemma KickOneSparesWithdrawable(st: Settings, b: Book, other: AccountId, session: SessionIndex, now: BlockNumber,
                                  who: AccountId, entry: (SessionIndex, Balance), reserved: Balance)
    requires Withdrawable(b, who, session, entry, reserved)
    ensures Withdrawable(KickOne(st, b, other, session, now), who, session, entry, reserved)
  {
    if IsCandidate(b.candidates, other) {
      StillListed(b.candidates, Position(b.candidates, other));
    }
  }

  /** Kicking leaves a bond alone that was unlocked in an earlier session. */
  lemma {:induction false} UnlockedBondIsSpared(st: Settings, b: Book, order: seq<AccountId>, session: SessionIndex, now: BlockNumber,
                                                who: AccountId, entry: (SessionIndex, Balance), reserved: Balance)
    requires Withdrawable(b, who, session, entry, reserved)
    ensures Withdrawable(Kick(st, b, order, session, now), who, session, entry, reserved)
    decreases |order|
  {
    if |order| > 0 {
      var n := |order| - 1;
      UnlockedBondIsSpared(st, b, order[..n], session, now, who, entry, reserved);
      KickOneSparesWithdrawable(st, Kick(st, b, order[..n], session, now), order[n], session, now, who, entry, reserved);
    }
  }

  /** `who` is a candidate in good standing, with `bond` reserved. */
  predicate Active(st: Settings, b: Book, who: AccountId, bond: Balance, now: BlockNumber) {
    IsCandidate(b.candidates, who) && !IsStale(st, b, who, now) && Of(b.reserved, who) == bond
  }

  lemma OthersStayListed(candidates: seq<CandidateInfo>, i: nat, who: AccountId)
    requires i < |candidates| && IsCandidate(candidates, who) && candidates[i].who != who
    ensures IsCandidate(Without(candidates, i), who)
  {
    var k :| 0 <= k < |candidates| && candidates[k].who == who;
    assert Without(candidates, i)[if k < i then k else k - 1].who == who;
  }

  lemma KickOneSparesActive(st: Settings, b: Book, other: AccountId, session: SessionIndex, now: BlockNumber, who: AccountId, bond: Balance)
    requires Active(st, b, who, bond, now)
    ensures Active(st, KickOne(st, b, other, session, now), who, bond, now)
  {
    if IsStale(st, b, other, now) && IsCandidate(b.candidates, other) {
      OthersStayListed(b.candidates, Position(b.candidates, other), who);
    }
  }

  /** Kicking, in any order, leaves every candidate that is not stale with its place and bond. */
  lemma {:induction false} ActiveCandidateStays(st: Settings, b: Book, order: seq<AccountId>, session: SessionIndex, now: BlockNumber,
                                                who: AccountId, bond: Balance)
    requires Active(st, b, who, bond, now)
    ensures Active(st, Kick(st, b, order, session, now), who, bond, now)
    decreases |order|
  {
    if |order| > 0 {
      var n := |order| - 1;
      ActiveCandidateStays(st, b, order[..n], session, now, who, bond);
      KickOneSparesActive(st, Kick(st, b, order[..n], session, now), order[n], session, now, who, bond);
    }
  }

  // ---------- runs ----------

  datatype Call =
    | Register(who: AccountId, allowed: bool, validator: Validator, session: SessionIndex, now: BlockNumber)
    | Leave(who: AccountId, session: SessionIndex)
    | Withdraw(who: AccountId, session: SessionIndex)
    | NewSession(order: seq<AccountId>, session: SessionIndex, now: BlockNumber)
    | Author(author: AccountId, now: BlockNumber)
    | SetInvulnerables(invulnerables: set<AccountId>)
    | SetDesired(desired: nat)
    | SetBond(bond: Balance)
    | SetSlashDestination(destination: Option<AccountId>)

  function Next(st: Settings, b: Book, call: Call): Book {
    match call
    case Register(who, allowed, validator, session, now) =>
      var r := RegisterAsCandidate(st, b, who, allowed, validator, session, now);
      if r.Done? then r.book else b
    case Leave(who, session) => var r := LeaveIntent(st, b, who, session); if r.Done? then r.book else b
    case Withdraw(who, session) => var r := WithdrawBond(b, who, session); if r.Done? then r.book else b
    case NewSession(order, session, now) => Kick(st, b, order, session, now)
    case Author(author, now) => NoteAuthor(b, author, now)
    case SetInvulnerables(invulnerables) => b.(invulnerables := invulnerables)
    case SetDesired(desired) => b.(desiredCandidates := desired)
    case SetBond(bond) => b.(candidacyBond := bond)
    case SetSlashDestination(destination) => b.(slashDestination := destination)
  }

  function Execute(st: Settings, b: Book, calls: seq<Call>): Book
    decreases |calls|
  {
    if |calls| == 0 then b else Next(st, Execute(st, b, calls[..|calls| - 1]), calls[|calls| - 1])
  }

  lemma NextKeepsOk(st: Settings, b: Book, call: Call)
    requires BookOk(b) && st.slashRatio <= PERBILL
    ensures BookOk(Next(st, b, call)) && TotalFunds(Next(st, b, call)) == TotalFunds(b)
    ensures |Next(st, b, call).candidates| >= Min(|b.candidates|, st.minCandidates)
  {
    match call
    case Register(who, allowed, validator, session, now) =>
      if RegisterAsCandidate(st, b, who, allowed, validator, session, now).Done? {
        RegisterKeepsOk(st, b, who, allowed, validator, session, now);
      }
    case Leave(who, session) =>
      if LeaveIntent(st, b, who, session).Done? {
        RemoveKeepsOk(b, who, session);
      }
    case Withdraw(who, session) =>
      if WithdrawBond(b, who, session).Done? {
        WithdrawKeepsOk(b, who, session);
      }
    case NewSession(order, session, now) => KickOutcome(st, b, order, session, now);
    case Author(author, now) =>
    case SetInvulnerables(invulnerables) =>
    case SetDesired(desired) =>
    case SetBond(bond) =>
    case SetSlashDestination(destination) =>
  }

  /** In every run from a state without bonds, each account has exactly its recorded deposit
      reserved, nobody is candidate and un-bonding at once, candidates are distinct and
      tracked, and no money is created or lost. */
  lemma {:induction false} BondsStayBacked(st: Settings, genesis: Book, calls: seq<Call>)
    requires st.slashRatio <= PERBILL
    requires genesis.candidates == [] && genesis.nonCandidates == map[] && genesis.reserved == map[]
    ensures BookOk(Execute(st, genesis, calls)) && TotalFunds(Execute(st, genesis, calls)) == TotalFunds(genesis)
    decreases |calls|
  {
    if |calls| > 0 {
      BondsStayBacked(st, genesis, calls[..|calls| - 1]);
      NextKeepsOk(st, Execute(st, genesis, calls[..|calls| - 1]), calls[|calls| - 1]);
    }
  }
}
