/** Treasury funds, multi-signature allocations and fee distribution. */
module DaoTreasury {
  import opened Common

  datatype Error =
    | Unauthorized | FundNotFound | InsufficientBalance | BudgetExceeded | AllocationNotFound
    | AllocationNotApproved | InvalidSigner | DuplicateSignature | InvalidFeeDistribution | InvalidAmount | Overflow

  const MAX_ALLOCATION: u128 := 1_000_000_000_000_000

  datatype Fund = Fund(balance: u128, budgetLimit: u128, budgetUsed: u128, period: u32, lastReset: u32)

  datatype Allocation = Allocation(
    recipient: Address, fund: string, amount: u128, purpose: string,
    approved: bool, approvals: u32, required: u32, created: u32, executed: u32)

  /** A fee recipient: an account or, whatever its address, the placeholder fund. */
  datatype Share = Share(recipient: Address, bps: u32, isFund: bool)

  /** The only fund that fees can reach: its name is 32 zero characters. */
  const PLACEHOLDER: string :=
    "\0\0\0\0\0\0\0\0\0\0\0\0\0\0\0\0\0\0\0\0\0\0\0\0\0\0\0\0\0\0\0\0"

  datatype Treasury = Treasury(
    owner: Address, signers: seq<Address>, required: u32, shares: seq<Share>,
    funds: map<string, Fund>, fundNames: seq<string>,
    allocations: map<u32, Allocation>, counter: u32, signed: set<(u32, Address)>,
    collected: u128, received: map<Address, u128>)

  /** A name that is taken is reported with the error of a fund that is missing. */
  function CreateFund(s: Treasury, now: u32, who: Address, name: string, limit: u128, period: u32): Result<Treasury, Error> {
    if who != s.owner then Failure(Unauthorized)
    else if name in s.funds then Failure(FundNotFound)
    else Success(s.(funds := s.funds[name := Fund(0, limit, 0, period, now)], fundNames := s.fundNames + [name]))
  }

  function Deposit(s: Treasury, name: string, amount: u128): Result<Treasury, Error> {
    if amount == 0 then Failure(InvalidAmount)
    else if name !in s.funds then Failure(FundNotFound)
    else if s.funds[name].balance + amount > U128_MAX then Failure(Overflow)
    else Success(s.(funds := s.funds[name := s.funds[name].(balance := s.funds[name].balance + amount)]))
  }

  function Request(s: Treasury, now: u32, recipient: Address, fund: string, amount: u128, purpose: string)
    : Result<Treasury, Error>
  {
    if amount == 0 || amount > MAX_ALLOCATION then Failure(InvalidAmount)
    else if s.counter == U32_MAX then Failure(Overflow)
    else Success(s.(counter := s.counter + 1,
                    allocations := s.allocations[s.counter := Allocation(recipient, fund, amount, purpose, false, 0, s.required, now, 0)]))
  }

  function Approve(s: Treasury, who: Address, id: u32): Result<Treasury, Error> {
    if who !in s.signers then Failure(InvalidSigner)
    else if (id, who) in s.signed then Failure(DuplicateSignature)
    else if id !in s.allocations then Failure(AllocationNotFound)
    else
      var a := s.allocations[id];
      if a.approvals == U32_MAX then Failure(Overflow)
      else
        var n := a.approvals + 1;
        Success(s.(signed := s.signed + {(id, who)},
                   allocations := s.allocations[id := a.(approvals := n, approved := a.approved || n >= a.required)]))
  }

  function Execute(s: Treasury, now: u32, id: u32): Result<Treasury, Error> {
    if id !in s.allocations then Failure(AllocationNotFound)
    else
      var a := s.allocations[id];
      if !a.approved then Failure(AllocationNotApproved)
      else if a.fund !in s.funds then Failure(FundNotFound)
      else
        var f := s.funds[a.fund];
        if a.amount + f.budgetUsed > U128_MAX then Failure(Overflow)
        else if a.amount + f.budgetUsed > f.budgetLimit then Failure(BudgetExceeded)
        else if a.amount > f.balance then Failure(InsufficientBalance)
        else Success(s.(funds := s.funds[a.fund := f.(balance := f.balance - a.amount, budgetUsed := f.budgetUsed + a.amount)],
                        allocations := s.allocations[id := a.(executed := now)]))
  }

  /** The saturating sum of the percentages. */
  function TotalBps(shares: seq<Share>): u32 {
    if shares == [] then 0 else SatAdd(TotalBps(shares[..|shares| - 1]), shares[|shares| - 1].bps)
  }

  function SetShares(s: Treasury, who: Address, shares: seq<Share>): Result<Treasury, Error> {
    if who != s.owner then Failure(Unauthorized)
    else if TotalBps(shares) != 10_000 then Failure(InvalidFeeDistribution)
    else Success(s.(shares := shares))
  }

  function ReceivedBy(received: map<Address, u128>, who: Address): u128 {
    if who in received then received[who] else 0
  }

  function Cut(total: u128, bps: u32): nat {
    total * bps / 10_000
  }

  /** Crediting one share, to the placeholder fund or to an account. */
  function CreditOne(s: Treasury, total: u128, share: Share): Result<Treasury, Error> {
    if total * share.bps > U128_MAX then Failure(Overflow)
    else
      var cut := Cut(total, share.bps);
      if share.isFund then Deposit(s, PLACEHOLDER, cut)
      else if ReceivedBy(s.received, share.recipient) + cut > U128_MAX then Failure(Overflow)
      else Success(s.(received := s.received[share.recipient := ReceivedBy(s.received, share.recipient) + cut]))
  }

  /** Crediting shares in order; a failure anywhere aborts the whole call. */
  function Credit(s: Treasury, total: u128, shares: seq<Share>): Result<Treasury, Error> {
    if shares == [] then Success(s)
    else
      match Credit(s, total, shares[..|shares| - 1])
      case Failure(e) => Failure(e)
      case Success(t) => CreditOne(t, total, shares[|shares| - 1])
  }

  function DistributeFees(s: Treasury, total: u128): Result<Treasury, Error> {
    match Credit(s, total, s.shares)
    case Failure(e) => Failure(e)
    case Success(t) =>
      if t.collected + total > U128_MAX then Failure(Overflow)
      else Success(t.(collected := t.collected + total))
  }

  class Contract {
    const owner: Address
    const signers: seq<Address>
    const required: u32
    var shares: seq<Share>
    var funds: map<string, Fund>
    var fundNames: seq<string>
    var allocations: map<u32, Allocation>
    var counter: u32
    var signed: set<(u32, Address)>
    var collected: u128
    var received: map<Address, u128>

    ghost function State(): Treasury
      reads this
    {
      Treasury(owner, signers, required, shares, funds, fundNames, allocations, counter, signed, collected, received)
    }

    constructor (owner: Address, signers: seq<Address>, required: u32)
      ensures State() == Treasury(owner, signers, required, [], map[], [], map[], 0, {}, 0, map[])
    {
      this.owner, this.signers, this.required := owner, signers, required;
      shares, funds, fundNames, allocations, counter := [], map[], [], map[], 0;
      signed, collected, received := {}, 0, map[];
    }

    method NewFund(now: u32, caller: Address, name: string, limit: u128, period: u32) returns (error: Option<Error>)
      modifies `funds, `fundNames
      ensures Commits(CreateFund(old(State()), now, caller, name, limit, period), old(State()), State(), error)
    {
      if caller != owner {
        return Some(Unauthorized);
      }
      if name in funds {
        return Some(FundNotFound);
      }
      funds := funds[name := Fund(0, limit, 0, period, now)];
      fundNames := fundNames + [name];
      error := None;
    }

    method DepositTo(name: string, amount: u128) returns (error: Option<Error>)
      modifies `funds
      ensures Commits(Deposit(old(State()), name, amount), old(State()), State(), error)
    {
      if amount == 0 {
        return Some(InvalidAmount);
      }
      if name !in funds {
        return Some(FundNotFound);
      }
      var fund := funds[name];
      if fund.balance + amount > U128_MAX {
        return Some(Overflow);
      }
      fund := fund.(balance := fund.balance + amount);
      funds := funds[name := fund];
      error := None;
    }

    method RequestAllocation(now: u32, recipient: Address, fund: string, amount: u128, purpose: string)
      returns (id: Result<u32, Error>)
      modifies `allocations, `counter
      ensures Commits(Request(old(State()), now, recipient, fund, amount, purpose), old(State()), State(),
                      if id.Success? then None else Some(id.error))
      ensures id.Success? ==> id.value == old(counter)
    {
      if amount == 0 || amount > MAX_ALLOCATION {
        return Failure(InvalidAmount);
      }
      if counter == U32_MAX {
        return Failure(Overflow);
      }
      var current := counter;
      counter := current + 1;
      allocations := allocations[current := Allocation(recipient, fund, amount, purpose, false, 0, required, now, 0)];
      id := Success(current);
    }

    method ApproveAllocation(signer: Address, id: u32) returns (error: Option<Error>)
      modifies `allocations, `signed
      ensures Commits(Approve(old(State()), signer, id), old(State()), State(), error)
    {
      var authorized := false;
      for i := 0 to |signers|
        invariant authorized <==> signer in signers[..i]
      {
        if signers[i] == signer {
          authorized := true;
        }
      }
      assert signers[..|signers|] == signers;
      if !authorized {
        return Some(InvalidSigner);
      }
      if (id, signer) in signed {
        return Some(DuplicateSignature);
      }
      if id !in allocations {
        return Some(AllocationNotFound);
      }
      var allocation := allocations[id];
      if allocation.approvals == U32_MAX {
        return Some(Overflow);
      }
      signed := signed + {(id, signer)};
      allocation := allocation.(approvals := allocation.approvals + 1);
      if allocation.approvals >= allocation.required {
        allocation := allocation.(approved := true);
      }
      allocations := allocations[id := allocation];
      error := None;
    }

    method ExecuteAllocation(now: u32, id: u32) returns (error: Option<Error>)
      modifies `allocations, `funds
      ensures Commits(Execute(old(State()), now, id), old(State()), State(), error)
    {
      if id !in allocations {
        return Some(AllocationNotFound);
      }
      var allocation := allocations[id];
      if !allocation.approved {
        return Some(AllocationNotApproved);
      }
      if allocation.fund !in funds {
        return Some(FundNotFound);
      }
      var fund := funds[allocation.fund];
      if allocation.amount + fund.budgetUsed > U128_MAX {
        return Some(Overflow);
      }
      if allocation.amount + fund.budgetUsed > fund.budgetLimit {
        return Some(BudgetExceeded);
      }
      if allocation.amount > fund.balance {
        return Some(InsufficientBalance);
      }
      fund := fund.(balance := fund.balance - allocation.amount);
      fund := fund.(budgetUsed := fund.budgetUsed + allocation.amount);
      allocation := allocation.(executed := now);
      funds := funds[allocation.fund := fund];
      allocations := allocations[id := allocation];
      error := None;
    }

    method SetFeeDistribution(caller: Address, distribution: seq<Share>) returns (error: Option<Error>)
      modifies `shares
      ensures Commits(SetShares(old(State()), caller, distribution), old(State()), State(), error)
    {
      if caller != owner {
        return Some(Unauthorized);
      }
      var total: u32 := 0;
      for i := 0 to |distribution|
        invariant total == TotalBps(distribution[..i])
      {
        assert distribution[..i + 1][..i] == distribution[..i];
        total := SatAdd(total, distribution[i].bps);
      }
      assert distribution[..|distribution|] == distribution;
      if total != 10_000 {
        return Some(InvalidFeeDistribution);
      }
      shares := distribution;
      error := None;
    }

    method Distribute(total: u128) returns (error: Option<Error>)
      modifies `received, `collected, `funds
      ensures Commits(DistributeFees(old(State()), total), old(State()), State(), error)
    {
      ghost var pre := State();
      var receivedBefore, fundsBefore := received, funds;
      for i := 0 to |shares|
        invariant Credit(pre, total, shares[..i]) == Success(State())
        invariant State() == pre.(funds := funds, received := received)
      {
        assert shares[..i + 1][..i] == shares[..i];
        error := CreditShare(total, shares[i]);
        if error.Some? {
          CreditFails(pre, total, shares, i + 1);
          received, funds := receivedBefore, fundsBefore;
          return;
        }
      }
      assert shares[..|shares|] == shares;
      if collected + total > U128_MAX {
        received, funds := receivedBefore, fundsBefore;
        return Some(Overflow);
      }
      collected := collected + total;
      error := None;
    }

    /** One turn of the loop: the share is deposited or recorded. */
    method CreditShare(total: u128, share: Share) returns (error: Option<Error>)
      modifies `received, `funds
      ensures Commits(CreditOne(old(State()), total, share), old(State()), State(), error)
    {
      var product := total * share.bps;
      if product > U128_MAX {
        return Some(Overflow);
      }
      var cut := product / 10_000;
      if share.isFund {
        error := DepositTo(PLACEHOLDER, cut);
      } else {
        var current := ReceivedBy(received, share.recipient);
        if current + cut > U128_MAX {
          return Some(Overflow);
        }
        received := received[share.recipient := current + cut];
        error := None;
      }
    }
  }

  /** A failure among the first `n` shares is a failure of the whole distribution. */
  lemma {:induction false} CreditFails(s: Treasury, total: u128, shares: seq<Share>, n: nat)
    requires n <= |shares| && Credit(s, total, shares[..n]).Failure?
    ensures Credit(s, total, shares) == Credit(s, total, shares[..n])
    decreases |shares|
  {
    if n == |shares| {
      assert shares[..n] == shares;
    } else {
      assert shares[..|shares| - 1][..n] == shares[..n];
      CreditFails(s, total, shares[..|shares| - 1], n);
    }
  }
}

/** Conservation of funds, approvals and fees over whole runs. */
module DaoTreasuryRuns {
  import opened Common
  import opened Sums
  import opened DaoTreasury

  datatype Call =
    | DoCreate(name: string, limit: u128, period: u32)
    | DoDeposit(name: string, amount: u128)
    | DoRequest(recipient: Address, fund: string, amount: u128, purpose: string)
    | DoApprove(id: u32)
    | DoExecute(id: u32)
    | DoSetShares(shares: seq<Share>)
    | DoDistribute(total: u128)

  datatype Tx = Tx(now: u32, who: Address, call: Call)

  function Attempt(s: Treasury, tx: Tx): Result<Treasury, Error> {
    match tx.call
    case DoCreate(name, limit, period) => CreateFund(s, tx.now, tx.who, name, limit, period)
    case DoDeposit(name, amount) => Deposit(s, name, amount)
    case DoRequest(recipient, fund, amount, purpose) => Request(s, tx.now, recipient, fund, amount, purpose)
    case DoApprove(id) => Approve(s, tx.who, id)
    case DoExecute(id) => Execute(s, tx.now, id)
    case DoSetShares(shares) => SetShares(s, tx.who, shares)
    case DoDistribute(total) => DistributeFees(s, total)
  }

  function Step(s: Treasury, tx: Tx): Treasury {
    match Attempt(s, tx) case Success(t) => t case Failure(_) => s
  }

  function Run(s: Treasury, txs: seq<Tx>): Treasury
    decreases txs
  {
    if txs == [] then s else Run(Step(s, txs[0]), txs[1..])
  }

  // Conservation

  function Balance(s: Treasury, fund: string): nat { if fund in s.funds then s.funds[fund].balance else 0 }

  function Used(s: Treasury, fund: string): nat { if fund in s.funds then s.funds[fund].budgetUsed else 0 }

  /** The part of a distribution that goes to the placeholder fund. */
  function FundCuts(total: u128, shares: seq<Share>): nat {
    if shares == [] then 0
    else
      var last := shares[|shares| - 1];
      FundCuts(total, shares[..|shares| - 1]) + (if last.isFund then Cut(total, last.bps) else 0)
  }

  /** What one transaction pays into a fund: a deposit, or fees. */
  function PayIn(s: Treasury, tx: Tx, fund: string): nat {
    if Attempt(s, tx).Failure? then 0
    else
      match tx.call
      case DoDeposit(name, amount) => if name == fund then amount else 0
      case DoDistribute(total) => if fund == PLACEHOLDER then FundCuts(total, s.shares) else 0
      case _ => 0
  }

  function Deposited(s: Treasury, txs: seq<Tx>, fund: string): nat
    decreases txs
  {
    if txs == [] then 0 else PayIn(s, txs[0], fund) + Deposited(Step(s, txs[0]), txs[1..], fund)
  }

  /** The amount one transaction pays out of a fund. */
  function Payout(s: Treasury, tx: Tx, fund: string): nat {
    if tx.call.DoExecute? && Attempt(s, tx).Success? && s.allocations[tx.call.id].fund == fund
    then s.allocations[tx.call.id].amount else 0
  }

  function PaidOut(s: Treasury, txs: seq<Tx>, fund: string): nat
    decreases txs
  {
    if txs == [] then 0 else Payout(s, txs[0], fund) + PaidOut(Step(s, txs[0]), txs[1..], fund)
  }

  /** Crediting shares reaches accounts and the balance of the placeholder fund only. */
  lemma {:induction false} CreditFrame(s: Treasury, total: u128, shares: seq<Share>)
    requires Credit(s, total, shares).Success?
    ensures var t := Credit(s, total, shares).value;
            && t == s.(funds := t.funds, received := t.received) && t.funds.Keys == s.funds.Keys
            && forall f <- s.funds :: t.funds[f] == s.funds[f].(balance := t.funds[f].balance)
    decreases |shares|
  {
    if shares != [] {
      CreditFrame(s, total, shares[..|shares| - 1]);
    }
  }

  lemma {:induction false} CreditBalance(s: Treasury, total: u128, shares: seq<Share>, fund: string)
    requires Credit(s, total, shares).Success?
    ensures Balance(Credit(s, total, shares).value, fund)
         == Balance(s, fund) + (if fund == PLACEHOLDER then FundCuts(total, shares) else 0)
    decreases |shares|
  {
    if shares != [] {
      CreditBalance(s, total, shares[..|shares| - 1], fund);
    }
  }

  lemma FeesToFund(s: Treasury, total: u128, fund: string)
    requires DistributeFees(s, total).Success?
    ensures var t := DistributeFees(s, total).value;
            && Used(t, fund) == Used(s, fund)
            && Balance(t, fund) == Balance(s, fund) + (if fund == PLACEHOLDER then FundCuts(total, s.shares) else 0)
  {
    CreditFrame(s, total, s.shares);
    CreditBalance(s, total, s.shares, fund);
  }

  lemma ExecuteMoves(s: Treasury, now: u32, id: u32, fund: string)
    requires Execute(s, now, id).Success?
    ensures var t, a := Execute(s, now, id).value, s.allocations[id];
            && Used(t, fund) == Used(s, fund) + (if a.fund == fund then a.amount else 0)
            && Balance(t, fund) + Used(t, fund) == Balance(s, fund) + Used(s, fund)
  {
  }

  lemma FundStep(s: Treasury, tx: Tx, fund: string)
    ensures Used(Step(s, tx), fund) == Used(s, fund) + Payout(s, tx, fund)
    ensures Balance(Step(s, tx), fund) + Used(Step(s, tx), fund)
         == Balance(s, fund) + Used(s, fund) + PayIn(s, tx, fund)
  {
    if Attempt(s, tx).Success? {
      match tx.call
      case DoCreate(_, _, _) =>
      case DoDeposit(_, _) =>
      case DoExecute(id) => ExecuteMoves(s, tx.now, id, fund);
      case DoDistribute(total) => FeesToFund(s, total, fund);
      case _ => assert Step(s, tx).funds == s.funds;
    }
  }

  /** Conservation: for every fund in every run, balance plus budget used grows by the
      deposits, and budget used by the payouts of all executions. */
  lemma {:induction false} FundsAreConserved(s: Treasury, txs: seq<Tx>, fund: string)
    ensures Used(Run(s, txs), fund) == Used(s, fund) + PaidOut(s, txs, fund)
    ensures Balance(Run(s, txs), fund) + Used(Run(s, txs), fund)
         == Balance(s, fund) + Used(s, fund) + Deposited(s, txs, fund)
    decreases txs
  {
    if txs != [] {
      FundStep(s, txs[0], fund);
      FundsAreConserved(Step(s, txs[0]), txs[1..], fund);
    }
  }

  ghost predicate WithinBudget(s: Treasury) {
    forall f <- s.funds :: s.funds[f].budgetUsed <= s.funds[f].budgetLimit
  }

  lemma BudgetStep(s: Treasury, tx: Tx)
    requires WithinBudget(s)
    ensures WithinBudget(Step(s, tx))
  {
    if Attempt(s, tx).Success? {
      match tx.call
      case DoCreate(_, _, _) =>
      case DoDeposit(_, _) =>
      case DoExecute(_) =>
      case DoDistribute(total) => CreditFrame(s, total, s.shares);
      case _ => assert Step(s, tx).funds == s.funds;
    }
  }

  /** No fund ever spends past its budget limit. */
  lemma {:induction false} BudgetsHold(s: Treasury, txs: seq<Tx>)
    requires WithinBudget(s)
    ensures WithinBudget(Run(s, txs))
    decreases txs
  {
    if txs != [] {
      BudgetStep(s, txs[0]);
      BudgetsHold(Step(s, txs[0]), txs[1..]);
    }
  }

  // Approvals

  /** The signatures on record for one allocation. */
  ghost function Signatures(signed: set<(u32, Address)>, id: u32): set<(u32, Address)> {
    set k | k in signed && k.0 == id
  }

  /** Approval counts are the distinct signatures on record, all by configured signers,
      and `approved` says the requirement was reached. */
  ghost predicate WellSigned(s: Treasury) {
    && (forall id <- s.allocations :: id < s.counter)
    && (forall k <- s.signed :: k.0 in s.allocations && k.1 in s.signers)
    && (forall id <- s.allocations ::
          && s.allocations[id].approvals == |Signatures(s.signed, id)|
          && s.allocations[id].required == s.required
          && (s.allocations[id].approved <==> s.allocations[id].approvals >= s.required && s.allocations[id].approvals > 0))
  }

  lemma SignatureAdded(signed: set<(u32, Address)>, key: (u32, Address), id: u32)
    requires key !in signed
    ensures |Signatures(signed + {key}, id)| == |Signatures(signed, id)| + (if key.0 == id then 1 else 0)
  {
    if key.0 == id {
      assert Signatures(signed + {key}, id) == Signatures(signed, id) + {key};
    } else {
      assert Signatures(signed + {key}, id) == Signatures(signed, id);
    }
  }

  lemma ApproveSigned(s: Treasury, who: Address, id: u32)
    requires WellSigned(s) && Approve(s, who, id).Success?
    ensures WellSigned(Approve(s, who, id).value)
  {
    forall j <- s.allocations
      ensures |Signatures(s.signed + {(id, who)}, j)| == |Signatures(s.signed, j)| + (if j == id then 1 else 0)
    {
      SignatureAdded(s.signed, (id, who), j);
    }
  }

  lemma RequestSigned(s: Treasury, tx: Tx)
    requires WellSigned(s) && tx.call.DoRequest? && Attempt(s, tx).Success?
    ensures WellSigned(Step(s, tx))
  {
    assert Signatures(s.signed, s.counter) == {};
  }

  lemma StepSigned(s: Treasury, tx: Tx)
    requires WellSigned(s)
    ensures WellSigned(Step(s, tx))
  {
    if Attempt(s, tx).Success? {
      match tx.call
      case DoRequest(_, _, _, _) => RequestSigned(s, tx);
      case DoApprove(id) => ApproveSigned(s, tx.who, id);
      case DoExecute(id) => assert Step(s, tx).signed == s.signed;
      case DoDistribute(total) => CreditFrame(s, total, s.shares);
      case _ => assert Step(s, tx).allocations == s.allocations && Step(s, tx).signed == s.signed;
    }
  }

  lemma {:induction false} RunSigned(s: Treasury, txs: seq<Tx>)
    requires WellSigned(s)
    ensures WellSigned(Run(s, txs))
    decreases txs
  {
    if txs != [] {
      StepSigned(s, txs[0]);
      RunSigned(Step(s, txs[0]), txs[1..]);
    }
  }

  /** Every execution in every run is backed by at least the required number of distinct
      signatures of configured signers. */
  lemma ExecutionIsSigned(s: Treasury, txs: seq<Tx>, tx: Tx)
    requires WellSigned(s) && tx.call.DoExecute? && Attempt(Run(s, txs), tx).Success?
    ensures var t := Run(s, txs);
            && (forall k <- Signatures(t.signed, tx.call.id) :: k.1 in t.signers)
            && t.allocations[tx.call.id].approvals == |Signatures(t.signed, tx.call.id)| >= t.required
            && Signatures(t.signed, tx.call.id) != {}
  {
    RunSigned(s, txs);
  }

  /** How often a run executes one allocation. */
  function Executions(s: Treasury, txs: seq<Tx>, id: u32): nat
    decreases txs
  {
    if txs == [] then 0
    else (if txs[0].call == DoExecute(id) && Attempt(s, txs[0]).Success? then 1 else 0)
         + Executions(Step(s, txs[0]), txs[1..], id)
  }

  /** Allocation `id` is approved and its fund exists. */
  predicate Payable(s: Treasury, id: u32) {
    id in s.allocations && id < s.counter && s.allocations[id].approved && s.allocations[id].fund in s.funds
  }

  /** What `n` more executions of `id` would take from the fund's budget stays within the limit. */
  predicate InBudget(s: Treasury, id: u32, n: nat)
    requires Payable(s, id)
  {
    var a, f := s.allocations[id], s.funds[s.allocations[id].fund];
    f.budgetUsed + n * a.amount <= f.budgetLimit
  }

  /** Amount, fund and limit of a payable allocation stay, and the budget used never falls. */
  ghost predicate SamePayable(s: Treasury, t: Treasury, id: u32, paid: nat)
    requires Payable(s, id)
  {
    var a := s.allocations[id];
    && Payable(t, id) && t.allocations[id].amount == a.amount && t.allocations[id].fund == a.fund
    && t.funds[a.fund].budgetLimit == s.funds[a.fund].budgetLimit
    && t.funds[a.fund].budgetUsed >= s.funds[a.fund].budgetUsed + paid
  }

  lemma ExecutePayable(s: Treasury, now: u32, other: u32, id: u32)
    requires Payable(s, id) && Execute(s, now, other).Success?
    ensures SamePayable(s, Execute(s, now, other).value, id, if other == id then s.allocations[id].amount else 0)
    ensures other == id ==> InBudget(s, id, 1)
  {
  }

  lemma StepPayable(s: Treasury, tx: Tx, id: u32)
    requires Payable(s, id)
    ensures var pays := tx.call == DoExecute(id) && Attempt(s, tx).Success?;
            && SamePayable(s, Step(s, tx), id, if pays then s.allocations[id].amount else 0)
            && (pays ==> InBudget(s, id, 1))
  {
    if Attempt(s, tx).Success? {
      match tx.call
      case DoExecute(other) => ExecutePayable(s, tx.now, other, id);
      case DoDistribute(total) => CreditFrame(s, total, s.shares);
      case DoCreate(_, _, _) =>
      case DoDeposit(_, _) =>
      case DoRequest(_, _, _, _) =>
      case DoApprove(_) =>
      case DoSetShares(_) =>
    }
  }

  /** No run executes an allocation more often than the rest of the budget covers. */
  lemma {:induction false} ExecutionsInBudget(s: Treasury, txs: seq<Tx>, id: u32)
    requires Payable(s, id)
    ensures Executions(s, txs, id) > 0 ==> InBudget(s, id, Executions(s, txs, id))
    decreases txs
  {
    if txs != [] {
      var t := Step(s, txs[0]);
      StepPayable(s, txs[0], id);
      ExecutionsInBudget(t, txs[1..], id);
      var n, amount := Executions(t, txs[1..], id), s.allocations[id].amount;
      assert (n + 1) * amount == n * amount + amount;
    }
  }

  /** Topping the fund up to the amount, if it holds less, and executing. */
  function PayOnce(s: Treasury, id: u32): seq<Tx>
    requires Payable(s, id)
  {
    var a, f := s.allocations[id], s.funds[s.allocations[id].fund];
    (if f.balance < a.amount then [Tx(0, s.owner, DoDeposit(a.fund, a.amount - f.balance))] else [])
    + [Tx(0, s.owner, DoExecute(id))]
  }

  lemma {:induction false} ExecutionsAppend(s: Treasury, a: seq<Tx>, b: seq<Tx>, id: u32)
    ensures Run(s, a + b) == Run(Run(s, a), b)
    ensures Executions(s, a + b, id) == Executions(s, a, id) + Executions(Run(s, a), b, id)
    decreases a
  {
    if a == [] {
      assert a + b == b;
    } else {
      assert (a + b)[1..] == a[1..] + b;
      ExecutionsAppend(Step(s, a[0]), a[1..], b, id);
    }
  }

  /** One execution of `id` has happened between the two states. */
  ghost predicate Paid(s: Treasury, t: Treasury, id: u32)
    requires Payable(s, id)
  {
    var a := s.allocations[id];
    && Payable(t, id) && t.allocations[id].amount == a.amount && t.allocations[id].fund == a.fund
    && t.funds[a.fund].budgetLimit == s.funds[a.fund].budgetLimit
    && t.funds[a.fund].budgetUsed == s.funds[a.fund].budgetUsed + a.amount
  }

  lemma PaysNow(s: Treasury, tx: Tx, id: u32)
    requires Payable(s, id) && InBudget(s, id, 1) && tx.call == DoExecute(id)
    requires s.funds[s.allocations[id].fund].balance >= s.allocations[id].amount
    ensures Executions(s, [tx], id) == 1 && Paid(s, Run(s, [tx]), id)
  {
    assert [tx][1..] == [];
    assert Run(s, [tx]) == Step(s, tx);
    assert Executions(Step(s, tx), [tx][1..], id) == 0;
  }

  lemma TopsUp(s: Treasury, tx: Tx, id: u32)
    requires Payable(s, id) && InBudget(s, id, 1)
    requires s.funds[s.allocations[id].fund].balance < s.allocations[id].amount
    requires tx.call == DoDeposit(s.allocations[id].fund, s.allocations[id].amount - s.funds[s.allocations[id].fund].balance)
    ensures Executions(s, [tx], id) == 0
    ensures var t, a := Run(s, [tx]), s.allocations[id];
            && t.allocations == s.allocations && t.counter == s.counter && a.fund in t.funds
            && t.funds[a.fund] == s.funds[a.fund].(balance := a.amount)
  {
    assert [tx][1..] == [];
    assert Run(s, [tx]) == Step(s, tx);
    assert Executions(Step(s, tx), [tx][1..], id) == 0;
  }

  lemma PaysOnce(s: Treasury, id: u32)
    requires Payable(s, id) && InBudget(s, id, 1)
    ensures Executions(s, PayOnce(s, id), id) == 1 && Paid(s, Run(s, PayOnce(s, id)), id)
  {
    var a, f := s.allocations[id], s.funds[s.allocations[id].fund];
    var pay := Tx(0, s.owner, DoExecute(id));
    if f.balance < a.amount {
      var top := Tx(0, s.owner, DoDeposit(a.fund, a.amount - f.balance));
      TopsUp(s, top, id);
      PaysNow(Run(s, [top]), pay, id);
      ExecutionsAppend(s, [top], [pay], id);
    } else {
      assert PayOnce(s, id) == [pay];
      PaysNow(s, pay, id);
    }
  }

  lemma {:induction false} PayMany(s: Treasury, id: u32, n: nat) returns (txs: seq<Tx>)
    requires Payable(s, id) && (n > 0 ==> InBudget(s, id, n))
    ensures Executions(s, txs, id) == n
    decreases n
  {
    if n == 0 {
      return [];
    }
    var amount := s.allocations[id].amount;
    assert n * amount == (n - 1) * amount + amount && (n - 1) * amount >= 0;
    PaysOnce(s, id);
    var rest := PayMany(Run(s, PayOnce(s, id)), id, n - 1);
    ExecutionsAppend(s, PayOnce(s, id), rest, id);
    txs := PayOnce(s, id) + rest;
  }

  ghost predicate PaysTimes(s: Treasury, txs: seq<Tx>, id: u32, n: nat) {
    Executions(s, txs, id) >= n
  }

  /** Having been executed before plays no part: some run executes an approved allocation n
      times if and only if the rest of the fund's budget covers n times the amount. So it is
      paid at most once in all runs exactly when the budget does not cover it twice. */
  lemma ExecutesTimesIff(s: Treasury, id: u32, n: nat)
    requires Payable(s, id) && n > 0
    ensures (exists txs :: PaysTimes(s, txs, id, n)) <==> InBudget(s, id, n)
  {
    if InBudget(s, id, n) {
      var txs := PayMany(s, id, n);
      assert PaysTimes(s, txs, id, n);
    }
    forall txs | PaysTimes(s, txs, id, n) ensures InBudget(s, id, n) {
      ExecutionsInBudget(s, txs, id);
      MoreCostsMore(n, Executions(s, txs, id), s.allocations[id].amount);
    }
  }

  lemma MoreCostsMore(n: nat, m: nat, amount: nat)
    requires n <= m
    ensures n * amount <= m * amount
  {
  }

  /** Executing twice in a row, with nothing in between, takes the amount twice from the
      balance as well. */
  lemma ExecutesTwiceIff(s: Treasury, now: u32, later: u32, id: u32)
    requires id in s.allocations && s.allocations[id].approved && s.allocations[id].fund in s.funds
    ensures var a, f := s.allocations[id], s.funds[s.allocations[id].fund];
            (Execute(s, now, id).Success? && Execute(Execute(s, now, id).value, later, id).Success?
             <==> 2 * a.amount + f.budgetUsed <= f.budgetLimit && 2 * a.amount <= f.balance)
  {
  }

  lemma OneStep(s: Treasury, tx: Tx, rest: seq<Tx>, fund: string)
    ensures Run(s, [tx] + rest) == Run(Step(s, tx), rest)
    ensures PaidOut(s, [tx] + rest, fund) == Payout(s, tx, fund) + PaidOut(Step(s, tx), rest, fund)
  {
    assert ([tx] + rest)[0] == tx && ([tx] + rest)[1..] == rest;
  }

  function Opened(owner: Address): Treasury {
    Treasury(owner, [owner], 1, [], map[], [], map[], 0, {}, 0, map[])
  }

  /** A fund of 50 with a limit of 100, and an approved allocation of 10 from it. */
  function Approved(owner: Address, recipient: Address): Treasury {
    Opened(owner).(funds := map["f" := Fund(50, 100, 0, 0, 1)], fundNames := ["f"], counter := 1, signed := {(0, owner)},
                   allocations := map[0 := Allocation(recipient, "f", 10, "", true, 1, 1, 3, 0)])
  }

  lemma ReachApproved(owner: Address, recipient: Address, rest: seq<Tx>) returns (txs: seq<Tx>)
    ensures Run(Opened(owner), txs) == Run(Approved(owner, recipient), rest)
    ensures PaidOut(Opened(owner), txs, "f") == PaidOut(Approved(owner, recipient), rest, "f")
  {
    var s := Opened(owner);
    var t1, t2 := Tx(1, owner, DoCreate("f", 100, 0)), Tx(2, owner, DoDeposit("f", 50));
    var t3, t4 := Tx(3, owner, DoRequest(recipient, "f", 10, "")), Tx(4, owner, DoApprove(0));
    txs := [t1] + ([t2] + ([t3] + ([t4] + rest)));
    OneStep(s, t1, [t2] + ([t3] + ([t4] + rest)), "f");
    var s1 := s.(funds := map["f" := Fund(0, 100, 0, 0, 1)], fundNames := ["f"]);
    assert Step(s, t1) == s1;
    OneStep(s1, t2, [t3] + ([t4] + rest), "f");
    var s2 := s1.(funds := map["f" := Fund(50, 100, 0, 0, 1)]);
    assert Step(s1, t2) == s2;
    OneStep(s2, t3, [t4] + rest, "f");
    var s3 := s2.(counter := 1, allocations := map[0 := Allocation(recipient, "f", 10, "", false, 0, 1, 3, 0)]);
    assert Step(s2, t3) == s3;
    OneStep(s3, t4, rest, "f");
    assert Step(s3, t4) == Approved(owner, recipient);
  }

  /** A run from the empty treasury in which one signed allocation is paid out twice. */
  lemma PaidTwice(owner: Address, recipient: Address) returns (txs: seq<Tx>)
    ensures PaidOut(Opened(owner), txs, "f") == 20
    ensures Run(Opened(owner), txs).allocations == map[0 := Allocation(recipient, "f", 10, "", true, 1, 1, 3, 6)]
  {
    var s := Approved(owner, recipient);
    var t5, t6 := Tx(5, owner, DoExecute(0)), Tx(6, owner, DoExecute(0));
    txs := ReachApproved(owner, recipient, [t5] + ([t6] + []));
    OneStep(s, t5, [t6] + [], "f");
    var s5 := s.(funds := map["f" := Fund(40, 100, 10, 0, 1)],
                 allocations := map[0 := Allocation(recipient, "f", 10, "", true, 1, 1, 3, 5)]);
    assert Step(s, t5) == s5;
    OneStep(s5, t6, [], "f");
  }

  // Fees

  function BpsSum(shares: seq<Share>): nat {
    if shares == [] then 0 else BpsSum(shares[..|shares| - 1]) + shares[|shares| - 1].bps
  }

  lemma {:induction false} SaturationIsHarmless(shares: seq<Share>)
    ensures TotalBps(shares) == if BpsSum(shares) <= U32_MAX then BpsSum(shares) else U32_MAX
    decreases |shares|
  {
    if shares != [] {
      SaturationIsHarmless(shares[..|shares| - 1]);
    }
  }

  function CutSum(total: u128, shares: seq<Share>): nat {
    if shares == [] then 0 else CutSum(total, shares[..|shares| - 1]) + Cut(total, shares[|shares| - 1].bps)
  }

  lemma FloorShare(x: nat)
    ensures 10_000 * (x / 10_000) <= x <= 10_000 * (x / 10_000) + 9_999
  {
  }

  lemma {:induction false} CutSumBounds(total: u128, shares: seq<Share>)
    ensures 10_000 * CutSum(total, shares) <= total * BpsSum(shares) <= 10_000 * CutSum(total, shares) + 9_999 * |shares|
    decreases |shares|
  {
    if shares != [] {
      var front, last := shares[..|shares| - 1], shares[|shares| - 1];
      CutSumBounds(total, front);
      FloorShare(total * last.bps);
      assert total * (BpsSum(front) + last.bps) == total * BpsSum(front) + total * last.bps;
    }
  }

  lemma {:induction false} CreditAddsCuts(s: Treasury, total: u128, shares: seq<Share>)
    requires Credit(s, total, shares).Success?
    ensures Sum(Credit(s, total, shares).value.received) + FundCuts(total, shares) == Sum(s.received) + CutSum(total, shares)
    decreases |shares|
  {
    if shares != [] {
      var front, last := shares[..|shares| - 1], shares[|shares| - 1];
      CreditAddsCuts(s, total, front);
      var t := Credit(s, total, front).value;
      if !last.isFund {
        SumPut(t.received, last.recipient, ReceivedBy(t.received, last.recipient) + Cut(total, last.bps));
      }
    }
  }

  lemma WithinShares(total: nat, cuts: nat, n: nat)
    requires 10_000 * cuts <= 10_000 * total <= 10_000 * cuts + 9_999 * n && n > 0
    ensures total - n + 1 <= cuts <= total
  {
  }

  /** Fee split: an accepted distribution among n recipients credits between T - n + 1
      and T in total, to accounts and to the placeholder fund together. */
  lemma FeeSplit(s: Treasury, total: u128)
    requires TotalBps(s.shares) == 10_000 && DistributeFees(s, total).Success?
    ensures var t := DistributeFees(s, total).value;
            var credited := Sum(t.received) - Sum(s.received) + Balance(t, PLACEHOLDER) - Balance(s, PLACEHOLDER);
            total - |s.shares| + 1 <= credited <= total
  {
    SaturationIsHarmless(s.shares);
    CutSumBounds(total, s.shares);
    assert total * BpsSum(s.shares) == 10_000 * total;
    WithinShares(total, CutSum(total, s.shares), |s.shares|);
    CreditAddsCuts(s, total, s.shares);
    FeesToFund(s, total, PLACEHOLDER);
  }

  predicate SharesValid(s: Treasury) {
    s.shares == [] || TotalBps(s.shares) == 10_000
  }

  /** The fees one transaction pays into the placeholder fund. */
  function FeesIn(s: Treasury, tx: Tx): nat {
    if tx.call.DoDistribute? then PayIn(s, tx, PLACEHOLDER) else 0
  }

  function AllFeesIn(s: Treasury, txs: seq<Tx>): nat
    decreases txs
  {
    if txs == [] then 0 else FeesIn(s, txs[0]) + AllFeesIn(Step(s, txs[0]), txs[1..])
  }

  lemma DistributeFeesStep(s: Treasury, total: u128)
    requires SharesValid(s) && DistributeFees(s, total).Success?
    ensures var t := DistributeFees(s, total).value;
            && SharesValid(t) && t.collected == s.collected + total
            && Sum(t.received) - Sum(s.received) + FundCuts(total, s.shares) <= total
  {
    CreditFrame(s, total, s.shares);
    if s.shares != [] {
      FeeSplit(s, total);
      FeesToFund(s, total, PLACEHOLDER);
    }
  }

  lemma StepFees(s: Treasury, tx: Tx)
    requires SharesValid(s)
    ensures SharesValid(Step(s, tx))
    ensures Sum(Step(s, tx).received) - Sum(s.received) + FeesIn(s, tx) <= Step(s, tx).collected - s.collected
  {
    if Attempt(s, tx).Success? {
      match tx.call
      case DoDistribute(total) => DistributeFeesStep(s, total);
      case _ => assert Step(s, tx).received == s.received && Step(s, tx).collected == s.collected;
    }
  }

  /** In every run accounts and the placeholder fund together receive no more fees than
      were collected. */
  lemma {:induction false} FeesNeverExceedCollected(s: Treasury, txs: seq<Tx>)
    requires SharesValid(s)
    ensures Sum(Run(s, txs).received) - Sum(s.received) + AllFeesIn(s, txs) <= Run(s, txs).collected - s.collected
    decreases txs
  {
    if txs != [] {
      StepFees(s, txs[0]);
      FeesNeverExceedCollected(Step(s, txs[0]), txs[1..]);
    }
  }
}
