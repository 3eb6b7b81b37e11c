/** Collator selection: registering with a bond, leaving, withdrawing, and kicking stale
    candidates, as functions on the pallet's storage and the balances it touches. */
module Collators {
  import opened Arithmetic
  import opened StakeTypes
  import opened MapSums

  type SessionIndex = nat

  datatype CandidateInfo = CandidateInfo(who: AccountId, deposit: Balance)

  datatype Settings = Settings(minCandidates: nat, kickThreshold: BlockNumber, slashRatio: nat)

  /** `reserved` is what this pallet has reserved of an account; `burned` what it destroyed. */
  datatype Book = Book(
    candidates: seq<CandidateInfo>,
    nonCandidates: map<AccountId, (SessionIndex, Balance)>,
    lastAuthored: map<AccountId, BlockNumber>,
    free: map<AccountId, Balance>,
    reserved: map<AccountId, Balance>,
    burned: Balance,
    invulnerables: set<AccountId>,
    desiredCandidates: nat,
    candidacyBond: Balance,
    slashDestination: Option<AccountId>)

  datatype Error =
    | TooManyCandidates | TooFewCandidates | AlreadyCandidate | NotCandidate | AlreadyInvulnerable
    | NoAssociatedValidatorId | ValidatorNotRegistered | NotAllowedCandidate | BondStillLocked
    | NoCandidacyBond | InsufficientBalance

  datatype Outcome = Done(book: Book) | Failed(error: Error)

  /** What the session pallet knows about an account. */
  datatype Validator = NoValidatorId | Unregistered | Registered

  function Of(m: map<AccountId, Balance>, who: AccountId): Balance {
    if who in m then m[who] else 0
  }

  // ---------- candidates ----------

  predicate IsCandidate(candidates: seq<CandidateInfo>, who: AccountId) {
    exists i :: 0 <= i < |candidates| && candidates[i].who == who
  }

  function Position(candidates: seq<CandidateInfo>, who: AccountId): (i: nat)
    requires IsCandidate(candidates, who)
    ensures i < |candidates| && candidates[i].who == who
  {
    if candidates[0].who == who then 0 else TailHas(candidates, who); 1 + Position(candidates[1..], who)
  }

  lemma TailHas(candidates: seq<CandidateInfo>, who: AccountId)
    requires IsCandidate(candidates, who) && candidates[0].who != who
    ensures IsCandidate(candidates[1..], who)
  {
    var i :| 0 <= i < |candidates| && candidates[i].who == who;
    assert candidates[1..][i - 1].who == who;
  }

  function Without(candidates: seq<CandidateInfo>, i: nat): seq<CandidateInfo>
    requires i < |candidates|
  {
    candidates[..i] + candidates[i + 1..]
  }

  ghost predicate Distinct(candidates: seq<CandidateInfo>) {
    forall i, j :: 0 <= i < j < |candidates| ==> candidates[i].who != candidates[j].who
  }

  // ---------- currency ----------

  function Reserve(b: Book, who: AccountId, amount: Balance): Book
    requires amount <= Of(b.free, who)
  {
    b.(free := b.free[who := Of(b.free, who) - amount], reserved := b.reserved[who := Of(b.reserved, who) + amount])
  }

  function Unreserve(b: Book, who: AccountId, amount: Balance): Book {
    var actual := Min(amount, Of(b.reserved, who));
    b.(free := b.free[who := Of(b.free, who) + actual], reserved := b.reserved[who := Of(b.reserved, who) - actual])
  }

  /** Takes from the reserve and gives to the slash destination, or burns. */
  function SlashReserved(b: Book, who: AccountId, amount: Balance): Book {
    var actual := Min(amount, Of(b.reserved, who));
    var reserved := b.reserved[who := Of(b.reserved, who) - actual];
    match b.slashDestination
    case None => b.(reserved := reserved, burned := b.burned + actual)
    case Some(destination) => b.(reserved := reserved, free := b.free[destination := Of(b.free, destination) + actual])
  }

  // ---------- calls ----------

  function ReleaseUnbonded(b: Book, who: AccountId): Book {
    if who !in b.nonCandidates then b
    else Unreserve(b.(nonCandidates := b.nonCandidates - {who}), who, b.nonCandidates[who].1)
  }

  /** `allowed` and `validator` come from the account check and the session pallet. */
  function RegisterAsCandidate(st: Settings, b: Book, who: AccountId, allowed: bool, validator: Validator,
                               session: SessionIndex, now: BlockNumber): Outcome
  {
    if |b.candidates| >= b.desiredCandidates then Failed(TooManyCandidates)
    else if who in b.invulnerables then Failed(AlreadyInvulnerable)
    else if !allowed then Failed(NotAllowedCandidate)
    else if validator == NoValidatorId then Failed(NoAssociatedValidatorId)
    else if validator == Unregistered then Failed(ValidatorNotRegistered)
    else if who in b.nonCandidates && session < b.nonCandidates[who].0 then Failed(BondStillLocked)
    else if IsCandidate(b.candidates, who) then Failed(AlreadyCandidate)
    else
      var released := ReleaseUnbonded(b, who);
      if Of(released.free, who) < b.candidacyBond then Failed(InsufficientBalance)
      else
        Done(Reserve(released, who, b.candidacyBond).(
               candidates := b.candidates + [CandidateInfo(who, b.candidacyBond)],
               lastAuthored := b.lastAuthored[who := now + st.kickThreshold]))
  }

  /** Moves a candidate to the un-bonding ones. */
  function RemoveCandidate(b: Book, who: AccountId, session: SessionIndex): Book
    requires IsCandidate(b.candidates, who)
  {
    var i := Position(b.candidates, who);
    b.(candidates := Without(b.candidates, i),
       nonCandidates := b.nonCandidates[who := (session + 1, b.candidates[i].deposit)])
  }

  function LeaveIntent(st: Settings, b: Book, who: AccountId, session: SessionIndex): Outcome {
    if |b.candidates| <= st.minCandidates then Failed(TooFewCandidates)
    else if !IsCandidate(b.candidates, who) then Failed(NotCandidate)
    else Done(RemoveCandidate(b, who, session))
  }

  function WithdrawBond(b: Book, who: AccountId, session: SessionIndex): Outcome {
    if who !in b.nonCandidates then Failed(NoCandidacyBond)
    else if session < b.nonCandidates[who].0 then Failed(BondStillLocked)
    else Done(ReleaseUnbonded(b, who).(lastAuthored := b.lastAuthored - {who}))
  }

  function SlashNonCandidate(st: Settings, b: Book, who: AccountId): Book {
    if who !in b.nonCandidates then b
    else
      var deposit := b.nonCandidates[who].1;
      var slash := MulNearest(PERBILL, st.slashRatio, deposit);
      var slashed := SlashReserved(b.(nonCandidates := b.nonCandidates - {who}), who, slash);
      Unreserve(slashed, who, SatSub(deposit, slash)).(lastAuthored := b.lastAuthored - {who})
  }

  predicate IsStale(st: Settings, b: Book, who: AccountId, now: BlockNumber) {
    who in b.lastAuthored && SatSub(now, b.lastAuthored[who]) >= st.kickThreshold
  }

  /** One step of the kick loop. */
  function KickOne(st: Settings, b: Book, who: AccountId, session: SessionIndex, now: BlockNumber): Book {
    if !IsStale(st, b, who, now) then b
    else if IsCandidate(b.candidates, who) then
      if |b.candidates| > st.minCandidates then SlashNonCandidate(st, RemoveCandidate(b, who, session), who) else b
    else if who in b.nonCandidates then
      if session > b.nonCandidates[who].0 then b.(lastAuthored := b.lastAuthored - {who})
      else SlashNonCandidate(st, b, who)
    else b
  }

  /** The kick loop over the accounts in the given order. */
  function Kick(st: Settings, b: Book, order: seq<AccountId>, session: SessionIndex, now: BlockNumber): Book
    decreases |order|
  {
    if |order| == 0 then b else KickOne(st, Kick(st, b, order[..|order| - 1], session, now), order[|order| - 1], session, now)
  }

  function NoteAuthor(b: Book, author: AccountId, now: BlockNumber): Book {
    b.(lastAuthored := b.lastAuthored[author := now])
  }

  // ---------- deposits ----------

  function CandidateDeposit(candidates: seq<CandidateInfo>, who: AccountId): Balance {
    if |candidates| == 0 then 0
    else (if candidates[0].who == who then candidates[0].deposit else 0) + CandidateDeposit(candidates[1..], who)
  }

  /** What is recorded as deposit of an account, as candidate or while un-bonding. */
  function Deposit(b: Book, who: AccountId): Balance {
    CandidateDeposit(b.candidates, who) + if who in b.nonCandidates then b.nonCandidates[who].1 else 0
  }

  ghost predicate Backed(b: Book) {
    forall a: AccountId :: Of(b.reserved, a) == Deposit(b, a)
  }

  /** Candidates are distinct and tracked, and nobody is a candidate while un-bonding. */
  ghost predicate Listed(b: Book) {
    && Distinct(b.candidates)
    && (forall i :: 0 <= i < |b.candidates| ==>
          b.candidates[i].who in b.lastAuthored && b.candidates[i].who !in b.nonCandidates)
  }

  ghost predicate BookOk(b: Book) {
    Listed(b) && Backed(b)
  }

  ghost function Amount(): (AccountId, Balance) -> nat {
    (a: AccountId, x: Balance) => x
  }

  /** All the money the pallet can move. */
  ghost function TotalFunds(b: Book): Balance {
    Sum(b.free, Amount()) + Sum(b.reserved, Amount()) + b.burned
  }

  lemma {:induction false} AppendedDeposit(candidates: seq<CandidateInfo>, c: CandidateInfo, who: AccountId)
    ensures CandidateDeposit(candidates + [c], who) == CandidateDeposit(candidates, who) + if c.who == who then c.deposit else 0
  {
    if |candidates| > 0 {
      assert (candidates + [c])[1..] == candidates[1..] + [c];
      AppendedDeposit(candidates[1..], c, who);
    }
  }

  lemma {:induction false} RemovedDeposit(candidates: seq<CandidateInfo>, i: nat, who: AccountId)
    requires i < |candidates|
    ensures CandidateDeposit(candidates, who)
            == CandidateDeposit(Without(candidates, i), who) + if candidates[i].who == who then candidates[i].deposit else 0
  {
    if i == 0 {
      assert Without(candidates, 0) == candidates[1..];
    } else {
      assert Without(candidates, i)[1..] == Without(candidates[1..], i - 1);
      RemovedDeposit(candidates[1..], i - 1, who);
    }
  }

  lemma {:induction false} NoDeposit(candidates: seq<CandidateInfo>, who: AccountId)
    requires !IsCandidate(candidates, who)
    ensures CandidateDeposit(candidates, who) == 0
  {
    if |candidates| > 0 {
      assert candidates[0].who != who;
      assert forall i :: 0 <= i < |candidates[1..]| ==> candidates[1..][i] == candidates[i + 1];
      NoDeposit(candidates[1..], who);
    }
  }

  /** Once removed, a candidate of a distinct list is no longer in it. */
  lemma RemovedIsGone(candidates: seq<CandidateInfo>, i: nat)
    requires Distinct(candidates) && i < |candidates|
    ensures Distinct(Without(candidates, i)) && !IsCandidate(Without(candidates, i), candidates[i].who)
  {
    var rest := Without(candidates, i);
    assert forall k :: 0 <= k < |rest| ==> rest[k] == candidates[if k < i then k else k + 1];
  }

  lemma MoveKeepsFunds(m: map<AccountId, Balance>, who: AccountId, amount: Balance)
    ensures Sum(m[who := amount], Amount()) + Of(m, who) == Sum(m, Amount()) + amount
  {
    SumInsert(m, who, amount, Amount());
  }
}
