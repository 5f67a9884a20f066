/** Proposals, votes and delegation of voting power. */
module DaoGovernance {
  import opened Common

  datatype Error =
    | Unauthorized | ProposalNotFound | VotingClosed | AlreadyVoted | InsufficientVotingPower | TimelockNotPassed
    | InvalidStatus | ProposalFailed | CannotDelegateToSelf | NoVotingPower | VotingNotStarted | Overflow

  datatype Kind = ParameterChange | FeaturePriority | TreasurySpending | EmergencyPause | ContractUpgrade

  datatype Status = Active | Passed | Defeated | Executed | Cancelled | ExecutionFailed

  datatype Choice = For | Against | Abstain

  datatype Terms = Terms(kind: Kind, title: string, description: string, parameters: Bytes, quorumBps: u32, thresholdBps: u32)

  datatype Proposal = Proposal(
    terms: Terms, proposer: Address, start: u32, end: u32, execution: u32,
    votesFor: u128, votesAgainst: u128, votesAbstain: u128, status: Status, cancellable: bool)

  datatype Power = Power(base: u128, delegated: u128, to: Option<Address>, since: u32)

  datatype Vote = Vote(choice: Choice, power: u128, ledger: u32)

  datatype Config = Config(
    token: Address, votingDelay: u32, votingPeriod: u32, timelock: u32, quorumBps: u32, thresholdBps: u32, fee: u128)

  datatype Dao = Dao(
    owner: Address, config: Config, counter: u32, proposals: map<u32, Proposal>,
    powers: map<Address, Power>, votes: map<(Address, u32), Vote>, voted: set<(Address, u32)>)

  function PowerOf(s: Dao, user: Address): Power {
    if user in s.powers then s.powers[user] else Power(0, 0, None, 0)
  }

  /** Base and delegated power together, as `propose` and `vote` add them up. */
  function Weight(s: Dao, user: Address): nat {
    PowerOf(s, user).base + PowerOf(s, user).delegated
  }

  function Propose(s: Dao, now: u32, who: Address, terms: Terms): Result<Dao, Error> {
    if Weight(s, who) > U128_MAX then Failure(Overflow)
    else if Weight(s, who) == 0 then Failure(InsufficientVotingPower)
    else if s.counter == U32_MAX then Failure(Overflow)
    else if now + s.config.votingDelay + s.config.votingPeriod + s.config.timelock > U32_MAX then Failure(Overflow)
    else
      var start := now + s.config.votingDelay;
      var end := start + s.config.votingPeriod;
      var quorum := if terms.quorumBps > 0 then terms.quorumBps else s.config.quorumBps;
      var threshold := if terms.thresholdBps > 0 then terms.thresholdBps else s.config.thresholdBps;
      var p := Proposal(terms.(quorumBps := quorum, thresholdBps := threshold), who, start, end, end + s.config.timelock,
                        0, 0, 0, Active, true);
      Success(s.(counter := s.counter + 1, proposals := s.proposals[s.counter := p]))
  }

  function Tally(p: Proposal, choice: Choice): u128 {
    match choice
    case For => p.votesFor
    case Against => p.votesAgainst
    case Abstain => p.votesAbstain
  }

  function AddVote(p: Proposal, choice: Choice, power: nat): Proposal
    requires Tally(p, choice) + power <= U128_MAX
  {
    match choice
    case For => p.(votesFor := p.votesFor + power)
    case Against => p.(votesAgainst := p.votesAgainst + power)
    case Abstain => p.(votesAbstain := p.votesAbstain + power)
  }

  function CastVote(s: Dao, now: u32, who: Address, id: u32, choice: Choice): Result<Dao, Error> {
    if id !in s.proposals then Failure(ProposalNotFound)
    else
      var p := s.proposals[id];
      if now < p.start then Failure(VotingNotStarted)
      else if now > p.end then Failure(VotingClosed)
      else if (who, id) in s.voted then Failure(AlreadyVoted)
      else if Weight(s, who) > U128_MAX then Failure(Overflow)
      else if Weight(s, who) == 0 then Failure(InsufficientVotingPower)
      else if Tally(p, choice) + Weight(s, who) > U128_MAX then Failure(Overflow)
      else Success(s.(proposals := s.proposals[id := AddVote(p, choice, Weight(s, who))],
                      votes := s.votes[(who, id) := Vote(choice, Weight(s, who), now)],
                      voted := s.voted + {(who, id)}))
  }

  function Delegate(s: Dao, now: u32, who: Address, to: Address): Result<Dao, Error> {
    var mine, theirs := PowerOf(s, who), PowerOf(s, to);
    if who == to then Failure(CannotDelegateToSelf)
    else if mine.base == 0 then Failure(NoVotingPower)
    else if theirs.delegated + mine.base > U128_MAX then Failure(Overflow)
    else Success(s.(powers := s.powers[who := mine.(to := Some(to), since := now)]
                                      [to := theirs.(delegated := theirs.delegated + mine.base)]))
  }

  function Undelegate(s: Dao, who: Address): Result<Dao, Error> {
    var mine := PowerOf(s, who);
    match mine.to
    case None => Success(s.(powers := s.powers[who := mine]))
    case Some(to) =>
      var theirs := PowerOf(s, to);
      if theirs.delegated < mine.base then Failure(Overflow)
      else Success(s.(powers := s.powers[to := theirs.(delegated := theirs.delegated - mine.base)]
                                        [who := mine.(to := None)]))
  }

  predicate HasPassed(p: Proposal, now: u32) {
    now > p.end && p.votesFor > p.votesAgainst
  }

  /** `proposal_passed` also adds the three tallies up, and aborts when they overflow. */
  function Execute(s: Dao, now: u32, id: u32): Result<Dao, Error> {
    if id !in s.proposals then Failure(ProposalNotFound)
    else
      var p := s.proposals[id];
      if now < p.execution then Failure(TimelockNotPassed)
      else if now > p.end && p.votesFor + p.votesAgainst + p.votesAbstain > U128_MAX then Failure(Overflow)
      else if !HasPassed(p, now) then Failure(ProposalFailed)
      else Success(s.(proposals := s.proposals[id := p.(status := Executed)]))
  }

  function Cancel(s: Dao, who: Address, id: u32): Result<Dao, Error> {
    if id !in s.proposals then Failure(ProposalNotFound)
    else
      var p := s.proposals[id];
      if who != p.proposer && who != s.owner then Failure(Unauthorized)
      else if !p.cancellable then Failure(InvalidStatus)
      else Success(s.(proposals := s.proposals[id := p.(status := Cancelled)]))
  }

  class Contract {
    const owner: Address
    var config: Config
    var counter: u32
    var proposals: map<u32, Proposal>
    var powers: map<Address, Power>
    var votes: map<(Address, u32), Vote>
    var voted: set<(Address, u32)>

    ghost function State(): Dao
      reads this
    {
      Dao(owner, config, counter, proposals, powers, votes, voted)
    }

    /** Token holdings are recorded outside the contract: `holdings` gives them. */
    constructor (owner: Address, config: Config, holdings: map<Address, Power>)
      ensures State() == Dao(owner, config, 0, map[], holdings, map[], {})
    {
      this.owner, this.config, counter := owner, config, 0;
      proposals, powers, votes, voted := map[], holdings, map[], {};
    }

    method GetVotingPower(user: Address) returns (power: Power)
      ensures power == PowerOf(State(), user)
    {
      power := if user in powers then powers[user] else Power(0, 0, None, 0);
    }

    method SubmitProposal(now: u32, proposer: Address, terms: Terms) returns (id: Result<u32, Error>)
      modifies `counter, `proposals
      ensures Commits(Propose(old(State()), now, proposer, terms), old(State()), State(),
                      if id.Success? then None else Some(id.error))
      ensures id.Success? ==> id.value == old(counter)
    {
      var power := GetVotingPower(proposer);
      if power.base + power.delegated > U128_MAX {
        return Failure(Overflow);
      }
      if power.base + power.delegated == 0 {
        return Failure(InsufficientVotingPower);
      }
      var current := counter;
      if current == U32_MAX || now + config.votingDelay + config.votingPeriod + config.timelock > U32_MAX {
        return Failure(Overflow);
      }
      counter := current + 1;
      var start := now + config.votingDelay;
      var end := start + config.votingPeriod;
      var quorum, threshold := terms.quorumBps, terms.thresholdBps;
      if quorum == 0 {
        quorum := config.quorumBps;
      }
      if threshold == 0 {
        threshold := config.thresholdBps;
      }
      proposals := proposals[current := Proposal(terms.(quorumBps := quorum, thresholdBps := threshold), proposer,
                                                 start, end, end + config.timelock, 0, 0, 0, Active, true)];
      id := Success(current);
    }

    method VoteOn(now: u32, voter: Address, id: u32, choice: Choice) returns (error: Option<Error>)
      modifies `proposals, `votes, `voted
      ensures Commits(CastVote(old(State()), now, voter, id, choice), old(State()), State(), error)
    {
      if id !in proposals {
        return Some(ProposalNotFound);
      }
      var proposal := proposals[id];
      if now < proposal.start {
        return Some(VotingNotStarted);
      }
      if now > proposal.end {
        return Some(VotingClosed);
      }
      if (voter, id) in voted {
        return Some(AlreadyVoted);
      }
      var power := GetVotingPower(voter);
      var total: nat := power.base + power.delegated;
      if total > U128_MAX {
        return Some(Overflow);
      }
      if total == 0 {
        return Some(InsufficientVotingPower);
      }
      match choice {
        case For =>
          if proposal.votesFor + total > U128_MAX {
            return Some(Overflow);
          }
          proposal := proposal.(votesFor := proposal.votesFor + total);
        case Against =>
          if proposal.votesAgainst + total > U128_MAX {
            return Some(Overflow);
          }
          proposal := proposal.(votesAgainst := proposal.votesAgainst + total);
        case Abstain =>
          if proposal.votesAbstain + total > U128_MAX {
            return Some(Overflow);
          }
          proposal := proposal.(votesAbstain := proposal.votesAbstain + total);
      }
      votes := votes[(voter, id) := Vote(choice, total, now)];
      voted := voted + {(voter, id)};
      proposals := proposals[id := proposal];
      error := None;
    }

    method DelegateTo(now: u32, delegator: Address, to: Address) returns (error: Option<Error>)
      modifies `powers
      ensures Commits(Delegate(old(State()), now, delegator, to), old(State()), State(), error)
    {
      if delegator == to {
        return Some(CannotDelegateToSelf);
      }
      var mine := GetVotingPower(delegator);
      if mine.base == 0 {
        return Some(NoVotingPower);
      }
      mine := mine.(to := Some(to), since := now);
      var theirs := GetVotingPower(to);
      if theirs.delegated + mine.base > U128_MAX {
        return Some(Overflow);
      }
      theirs := theirs.(delegated := theirs.delegated + mine.base);
      powers := powers[delegator := mine];
      powers := powers[to := theirs];
      error := None;
    }

    method RevokeDelegation(delegator: Address) returns (error: Option<Error>)
      modifies `powers
      ensures Commits(Undelegate(old(State()), delegator), old(State()), State(), error)
    {
      var mine := GetVotingPower(delegator);
      if mine.to.Some? {
        var theirs := GetVotingPower(mine.to.value);
        if theirs.delegated < mine.base {
          return Some(Overflow);
        }
        powers := powers[mine.to.value := theirs.(delegated := theirs.delegated - mine.base)];
      }
      powers := powers[delegator := mine.(to := None)];
      error := None;
    }

    method ExecuteProposal(now: u32, id: u32) returns (error: Option<Error>)
      modifies `proposals
      ensures Commits(Execute(old(State()), now, id), old(State()), State(), error)
    {
      if id !in proposals {
        return Some(ProposalNotFound);
      }
      var proposal := proposals[id];
      if now < proposal.execution {
        return Some(TimelockNotPassed);
      }
      if now > proposal.end && proposal.votesFor + proposal.votesAgainst + proposal.votesAbstain > U128_MAX {
        return Some(Overflow);
      }
      if now <= proposal.end || proposal.votesFor <= proposal.votesAgainst {
        return Some(ProposalFailed);
      }
      proposals := proposals[id := proposal.(status := Executed)];
      error := None;
    }

    method CancelProposal(caller: Address, id: u32) returns (error: Option<Error>)
      modifies `proposals
      ensures Commits(Cancel(old(State()), caller, id), old(State()), State(), error)
    {
      if id !in proposals {
        return Some(ProposalNotFound);
      }
      var proposal := proposals[id];
      if caller != proposal.proposer && caller != owner {
        return Some(Unauthorized);
      }
      if !proposal.cancellable {
        return Some(InvalidStatus);
      }
      proposals := proposals[id := proposal.(status := Cancelled)];
      error := None;
    }
  }
}

/** Whole-run guarantees of the governance contract. */
module DaoGovernanceRuns {
  import opened Common
  import opened Sums
  import opened DaoGovernance

  datatype Call =
    | DoPropose(terms: Terms)
    | DoVote(id: u32, choice: Choice)
    | DoDelegate(to: Address)
    | DoUndelegate
    | DoExecute(id: u32)
    | DoCancel(id: u32)
    | DoConfigure(config: Config)

  datatype Tx = Tx(now: u32, who: Address, call: Call)

  function Now(tx: Tx): nat { tx.now }

  function Attempt(s: Dao, tx: Tx): Result<Dao, Error> {
    match tx.call
    case DoPropose(terms) => Propose(s, tx.now, tx.who, terms)
    case DoVote(id, choice) => CastVote(s, tx.now, tx.who, id, choice)
    case DoDelegate(to) => Delegate(s, tx.now, tx.who, to)
    case DoUndelegate => Undelegate(s, tx.who)
    case DoExecute(id) => Execute(s, tx.now, id)
    case DoCancel(id) => Cancel(s, tx.who, id)
    case DoConfigure(config) =>
      if tx.who == s.owner then Success(s.(config := config.(token := s.config.token))) else Failure(Unauthorized)
  }

  function Step(s: Dao, tx: Tx): Dao {
    match Attempt(s, tx) case Success(t) => t case Failure(_) => s
  }

  function Run(s: Dao, txs: seq<Tx>): Dao
    decreases txs
  {
    if txs == [] then s else Run(Step(s, txs[0]), txs[1..])
  }

  // Delegation

  /** The base power of everyone currently delegating to `d`. */
  ghost function Delegators(powers: map<Address, Power>, d: Address): map<Address, nat> {
    map u | u in powers && powers[u].to == Some(d) :: powers[u].base
  }

  /** Delegated power of `d` in excess of what its current delegators account for. */
  ghost function Excess(s: Dao, d: Address): int {
    PowerOf(s, d).delegated - Sum(Delegators(s.powers, d))
  }

  ghost predicate NoSelfDelegation(s: Dao) {
    forall u <- s.powers :: s.powers[u].to != Some(u)
  }

  /** The power a transaction strands at `d`: a delegator who moves on (or delegates
      again to the same address) without undelegating first leaves its base power behind. */
  function Stranded(s: Dao, tx: Tx, d: Address): nat {
    if tx.call.DoDelegate? && Attempt(s, tx).Success? && PowerOf(s, tx.who).to == Some(d)
    then PowerOf(s, tx.who).base else 0
  }

  function AllStranded(s: Dao, txs: seq<Tx>, d: Address): nat
    decreases txs
  {
    if txs == [] then 0 else Stranded(s, txs[0], d) + AllStranded(Step(s, txs[0]), txs[1..], d)
  }

  /** Changing one record changes the delegator map at one key only. */
  lemma DelegatorsPut(powers: map<Address, Power>, u: Address, p: Power, d: Address)
    ensures Delegators(powers[u := p], d)
         == if p.to == Some(d) then Delegators(powers, d)[u := p.base] else Delegators(powers, d) - {u}
  {
  }

  lemma SumDelegatorsPut(powers: map<Address, Power>, u: Address, p: Power, d: Address)
    ensures var gone := if u in powers && powers[u].to == Some(d) then powers[u].base else 0;
            var come := if p.to == Some(d) then p.base else 0;
            Sum(Delegators(powers[u := p], d)) == Sum(Delegators(powers, d)) - gone + come
  {
    var m := Delegators(powers, d);
    DelegatorsPut(powers, u, p, d);
    if p.to == Some(d) {
      SumPut(m, u, p.base);
    } else if u in m {
      SumRemove(m, u);
    } else {
      assert m - {u} == m;
    }
  }

  /** What rewriting one record does to the excess at `d`. */
  lemma ExcessPut(s: Dao, u: Address, p: Power, d: Address)
    ensures var was := PowerOf(s, u);
            Excess(s.(powers := s.powers[u := p]), d)
            == Excess(s, d) + (if u == d then p.delegated - was.delegated else 0)
               + (if was.to == Some(d) then was.base else 0) - (if p.to == Some(d) then p.base else 0)
  {
    SumDelegatorsPut(s.powers, u, p, d);
  }

  lemma DelegateExcess(s: Dao, now: u32, who: Address, to: Address, d: Address)
    requires Delegate(s, now, who, to).Success?
    ensures Excess(Delegate(s, now, who, to).value, d)
         == Excess(s, d) + (if PowerOf(s, who).to == Some(d) then PowerOf(s, who).base else 0)
  {
    var mine := PowerOf(s, who).(to := Some(to), since := now);
    var theirs := PowerOf(s, to);
    ExcessPut(s, who, mine, d);
    ExcessPut(s.(powers := s.powers[who := mine]), to, theirs.(delegated := theirs.delegated + mine.base), d);
  }

  /** Delegating adds the delegator's base power to the delegate and takes nothing from
      the delegator, who keeps voting with it. */
  lemma DelegateWeights(s: Dao, now: u32, who: Address, to: Address, d: Address)
    requires Delegate(s, now, who, to).Success?
    ensures Weight(Delegate(s, now, who, to).value, d) == Weight(s, d) + (if d == to then PowerOf(s, who).base else 0)
  {
  }

  lemma UndelegateExcess(s: Dao, who: Address, d: Address)
    requires NoSelfDelegation(s) && Undelegate(s, who).Success?
    ensures Excess(Undelegate(s, who).value, d) == Excess(s, d)
  {
    var mine := PowerOf(s, who);
    if mine.to.Some? {
      var to := mine.to.value;
      var theirs := PowerOf(s, to);
      var less := theirs.(delegated := theirs.delegated - mine.base);
      ExcessPut(s, to, less, d);
      ExcessPut(s.(powers := s.powers[to := less]), who, mine.(to := None), d);
    } else {
      ExcessPut(s, who, mine, d);
    }
  }

  lemma StepNoSelf(s: Dao, tx: Tx)
    requires NoSelfDelegation(s)
    ensures NoSelfDelegation(Step(s, tx))
  {
    if Attempt(s, tx).Success? {
      match tx.call
      case DoDelegate(_) =>
      case DoUndelegate =>
      case _ => assert Step(s, tx).powers == s.powers;
    }
  }

  lemma StepExcess(s: Dao, tx: Tx, d: Address)
    requires NoSelfDelegation(s)
    ensures NoSelfDelegation(Step(s, tx)) && Excess(Step(s, tx), d) == Excess(s, d) + Stranded(s, tx, d)
  {
    StepNoSelf(s, tx);
    if Attempt(s, tx).Success? {
      match tx.call
      case DoDelegate(to) => DelegateExcess(s, tx.now, tx.who, to, d);
      case DoUndelegate => UndelegateExcess(s, tx.who, d);
      case _ =>
    }
  }

  /** Delegation accounting, exactly: over any run the delegated power of `d` is what its
      current delegators hold, plus the excess it started with, plus what was stranded. */
  lemma {:induction false} DelegationAccounting(s: Dao, txs: seq<Tx>, d: Address)
    requires NoSelfDelegation(s)
    ensures NoSelfDelegation(Run(s, txs))
    ensures PowerOf(Run(s, txs), d).delegated
         == Sum(Delegators(Run(s, txs).powers, d)) + Excess(s, d) + AllStranded(s, txs, d)
    decreases txs
  {
    if txs != [] {
      StepExcess(s, txs[0], d);
      DelegationAccounting(Step(s, txs[0]), txs[1..], d);
    }
  }

  /** So revoking never underflows: an undelegation is accepted in every reachable state. */
  lemma UndelegateNeverFails(s: Dao, txs: seq<Tx>, who: Address)
    requires NoSelfDelegation(s) && forall d :: Excess(s, d) >= 0
    ensures Undelegate(Run(s, txs), who).Success?
  {
    var t := Run(s, txs);
    var mine := PowerOf(t, who);
    if mine.to.Some? {
      var to := mine.to.value;
      DelegationAccounting(s, txs, to);
      SumRemove(Delegators(t.powers, to), who);
    }
  }

  /** The books balance at every address after a run if and only if nobody who had a
      delegate delegated again. */
  lemma {:induction false} BooksBalanceIff(s: Dao, txs: seq<Tx>)
    requires NoSelfDelegation(s) && forall d :: Excess(s, d) == 0
    ensures (forall d :: PowerOf(Run(s, txs), d).delegated == Sum(Delegators(Run(s, txs).powers, d)))
        <==> NeverMovesOn(s, txs)
    decreases txs
  {
    forall d ensures PowerOf(Run(s, txs), d).delegated
                     == Sum(Delegators(Run(s, txs).powers, d)) + AllStranded(s, txs, d) {
      DelegationAccounting(s, txs, d);
    }
    if NeverMovesOn(s, txs) {
      forall d ensures AllStranded(s, txs, d) == 0 {
        NothingStranded(s, txs, d);
      }
    } else {
      var d := FindStranded(s, txs);
      assert PowerOf(Run(s, txs), d).delegated != Sum(Delegators(Run(s, txs).powers, d));
    }
  }

  /** Every accepted delegation comes from an address without a current delegate. */
  predicate NeverMovesOn(s: Dao, txs: seq<Tx>)
    decreases txs
  {
    txs == [] ||
    (&& (txs[0].call.DoDelegate? && Attempt(s, txs[0]).Success? ==> PowerOf(s, txs[0].who).to == None)
     && NeverMovesOn(Step(s, txs[0]), txs[1..]))
  }

  lemma {:induction false} NothingStranded(s: Dao, txs: seq<Tx>, d: Address)
    requires NeverMovesOn(s, txs)
    ensures AllStranded(s, txs, d) == 0
    decreases txs
  {
    if txs != [] {
      NothingStranded(Step(s, txs[0]), txs[1..], d);
    }
  }

  lemma {:induction false} FindStranded(s: Dao, txs: seq<Tx>) returns (d: Address)
    requires !NeverMovesOn(s, txs)
    ensures AllStranded(s, txs, d) > 0
    decreases txs
  {
    if txs[0].call.DoDelegate? && Attempt(s, txs[0]).Success? && PowerOf(s, txs[0].who).to != None {
      d := PowerOf(s, txs[0].who).to.value;
    } else {
      d := FindStranded(Step(s, txs[0]), txs[1..]);
    }
  }

  // Votes

  /** The recorded power behind one choice on one proposal. */
  ghost function Ballots(votes: map<(Address, u32), Vote>, id: u32, choice: Choice): map<(Address, u32), nat> {
    map k | k in votes && k.1 == id && votes[k].choice == choice :: votes[k].power
  }

  /** Every tally is the sum of the recorded votes, one per address, and nothing refers
      to a proposal that does not exist yet. */
  ghost predicate Tallied(s: Dao) {
    && (forall k :: k in s.voted <==> k in s.votes)
    && (forall k <- s.votes :: k.1 in s.proposals)
    && (forall id <- s.proposals :: id < s.counter)
    && (forall id, c | id in s.proposals :: Tally(s.proposals[id], c) == Sum(Ballots(s.votes, id, c)))
  }

  lemma BallotsPut(votes: map<(Address, u32), Vote>, key: (Address, u32), vote: Vote, id: u32, c: Choice)
    requires key !in votes
    ensures Sum(Ballots(votes[key := vote], id, c))
         == Sum(Ballots(votes, id, c)) + (if key.1 == id && vote.choice == c then vote.power else 0)
  {
    var m := Ballots(votes, id, c);
    if key.1 == id && vote.choice == c {
      assert Ballots(votes[key := vote], id, c) == m[key := vote.power];
      SumPut(m, key, vote.power);
    } else {
      assert Ballots(votes[key := vote], id, c) == m;
    }
  }

  lemma VoteTallied(s: Dao, now: u32, who: Address, id: u32, choice: Choice)
    requires Tallied(s) && CastVote(s, now, who, id, choice).Success?
    ensures Tallied(CastVote(s, now, who, id, choice).value)
  {
    var t := CastVote(s, now, who, id, choice).value;
    forall j, c | j in t.proposals ensures Tally(t.proposals[j], c) == Sum(Ballots(t.votes, j, c)) {
      BallotsPut(s.votes, (who, id), t.votes[(who, id)], j, c);
    }
  }

  lemma ProposeTallied(s: Dao, now: u32, who: Address, terms: Terms)
    requires Tallied(s) && Propose(s, now, who, terms).Success?
    ensures Tallied(Propose(s, now, who, terms).value)
  {
    var t := Propose(s, now, who, terms).value;
    forall j, c | j in t.proposals ensures Tally(t.proposals[j], c) == Sum(Ballots(t.votes, j, c)) {
      if j == s.counter {
        assert Ballots(t.votes, j, c) == map[];
      }
    }
  }

  lemma StepTallied(s: Dao, tx: Tx)
    requires Tallied(s)
    ensures Tallied(Step(s, tx))
  {
    if Attempt(s, tx).Success? {
      match tx.call
      case DoPropose(terms) => ProposeTallied(s, tx.now, tx.who, terms);
      case DoVote(id, choice) => VoteTallied(s, tx.now, tx.who, id, choice);
      case _ =>
    }
  }

  /** In every reachable state each tally is the sum of the recorded votes. */
  lemma {:induction false} RunTallied(s: Dao, txs: seq<Tx>)
    requires Tallied(s)
    ensures Tallied(Run(s, txs))
    decreases txs
  {
    if txs != [] {
      StepTallied(s, txs[0]);
      RunTallied(Step(s, txs[0]), txs[1..]);
    }
  }

  lemma FreezeStep(s: Dao, tx: Tx, id: u32)
    requires Tallied(s) && id in s.proposals && tx.now > s.proposals[id].end
    ensures id in Step(s, tx).proposals
    ensures Step(s, tx).proposals[id].(status := s.proposals[id].status) == s.proposals[id]
    ensures forall k | k in Step(s, tx).votes && k.1 == id :: k in s.votes && s.votes[k] == Step(s, tx).votes[k]
    ensures forall k | k in s.votes && k.1 == id :: k in Step(s, tx).votes
  {
    if Attempt(s, tx).Success? {
      match tx.call
      case DoPropose(_) =>
      case DoVote(_, _) =>
      case DoExecute(_) =>
      case DoCancel(_) =>
      case _ => assert Step(s, tx).proposals == s.proposals && Step(s, tx).votes == s.votes;
    }
  }

  /** Once the voting period of a proposal is over, its tallies, dates and recorded votes
      never change: none is added, altered or removed, whatever is proposed, voted, executed or cancelled afterwards. */
  lemma {:induction false} TalliesFreeze(s: Dao, txs: seq<Tx>, id: u32)
    requires Tallied(s) && id in s.proposals
    requires forall tx <- txs :: tx.now > s.proposals[id].end
    ensures id in Run(s, txs).proposals
    ensures Run(s, txs).proposals[id].(status := s.proposals[id].status) == s.proposals[id]
    ensures forall k | k in Run(s, txs).votes && k.1 == id :: k in s.votes && s.votes[k] == Run(s, txs).votes[k]
    ensures forall k | k in s.votes && k.1 == id :: k in Run(s, txs).votes
    decreases txs
  {
    if txs != [] {
      assert txs[0] in txs && forall tx <- txs[1..] :: tx in txs;
      FreezeStep(s, txs[0], id);
      StepTallied(s, txs[0]);
      TalliesFreeze(Step(s, txs[0]), txs[1..], id);
    }
  }

  /** A proposal marked executed is past its voting period, and more voted for it than against. */
  ghost predicate ExecutedFairly(s: Dao, clock: nat) {
    forall id <- s.proposals :: s.proposals[id].status == Executed ==>
      s.proposals[id].end < clock && s.proposals[id].votesFor > s.proposals[id].votesAgainst
  }

  lemma FairStep(s: Dao, tx: Tx, clock: nat)
    requires ExecutedFairly(s, clock) && clock <= tx.now
    ensures ExecutedFairly(Step(s, tx), tx.now)
  {
  }

  /** In every run: what was ever executed had won its vote, and keeps having won it. */
  lemma {:induction false} ExecutedStaysFair(s: Dao, txs: seq<Tx>, clock: nat)
    requires ExecutedFairly(s, clock) && Clocked(txs, Now, clock)
    ensures ExecutedFairly(Run(s, txs), EndTime(txs, Now, clock))
    decreases txs
  {
    if txs != [] {
      ClockedTail(txs, Now, clock);
      FairStep(s, txs[0], clock);
      ExecutedStaysFair(Step(s, txs[0]), txs[1..], txs[0].now);
    }
  }

  /** Whatever happens to its status later, a proposal that was once executed has won its
      vote for ever. */
  lemma ExecutedOnceWonForever(s: Dao, tx: Tx, txs: seq<Tx>, id: u32)
    requires Tallied(s) && tx.call == DoExecute(id) && Attempt(s, tx).Success? && Clocked(txs, Now, tx.now)
    ensures id in Run(Step(s, tx), txs).proposals
    ensures var p := Run(Step(s, tx), txs).proposals[id]; p.votesFor > p.votesAgainst
  {
    StepTallied(s, tx);
    TalliesFreeze(Step(s, tx), txs, id);
  }

  /** A cancellation the contract accepts: the owner's or the proposer's. */
  predicate Cancels(s: Dao, tx: Tx, id: u32)
    requires id in s.proposals
  {
    tx.call == DoCancel(id) && s.proposals[id].cancellable && (tx.who == s.proposals[id].proposer || tx.who == s.owner)
  }

  /** An execution the contract accepts: past the timelock, and the vote is won. */
  predicate Executes(s: Dao, tx: Tx, id: u32)
    requires id in s.proposals
  {
    var p := s.proposals[id];
    && tx.call == DoExecute(id) && tx.now >= p.execution && HasPassed(p, tx.now)
    && p.votesFor + p.votesAgainst + p.votesAbstain <= U128_MAX
  }

  /** The status of an existing proposal changes exactly here. Neither execution nor
      cancellation looks at the status the proposal already has. */
  lemma StatusStep(s: Dao, tx: Tx, id: u32)
    requires id in s.proposals && id < s.counter
    ensures id in Step(s, tx).proposals
    ensures Step(s, tx).proposals[id].status
         == if Cancels(s, tx, id) then Cancelled else if Executes(s, tx, id) then Executed else s.proposals[id].status
  {
  }

  /** The status an accepted execution or cancellation of `id` asks for. */
  function Decision(s: Dao, tx: Tx, id: u32): seq<Status> {
    if Attempt(s, tx).Failure? then []
    else if tx.call == DoExecute(id) then [Executed]
    else if tx.call == DoCancel(id) then [Cancelled]
    else []
  }

  function Decisions(s: Dao, txs: seq<Tx>, id: u32): seq<Status>
    decreases txs
  {
    if txs == [] then [] else Decision(s, txs[0], id) + Decisions(Step(s, txs[0]), txs[1..], id)
  }

  lemma DecisionStep(s: Dao, tx: Tx, id: u32)
    requires id in s.proposals && id < s.counter
    ensures id in Step(s, tx).proposals && id < Step(s, tx).counter
    ensures Step(s, tx).proposals[id].status
         == if Decision(s, tx, id) == [] then s.proposals[id].status else Decision(s, tx, id)[0]
  {
    StatusStep(s, tx, id);
  }

  /** After any run the status of a proposal is the one the last accepted execution or
      cancellation asked for; there is no limit on how often it changes. */
  lemma {:induction false} StatusAfterRun(s: Dao, txs: seq<Tx>, id: u32)
    requires id in s.proposals && id < s.counter
    ensures id in Run(s, txs).proposals
    ensures var all := Decisions(s, txs, id);
            Run(s, txs).proposals[id].status == if all == [] then s.proposals[id].status else all[|all| - 1]
    decreases txs
  {
    if txs != [] {
      DecisionStep(s, txs[0], id);
      StatusAfterRun(Step(s, txs[0]), txs[1..], id);
    }
  }

  // Runs in which the outlined behaviour fails

  lemma OneStep(s: Dao, tx: Tx, rest: seq<Tx>, id: u32)
    ensures Run(s, [tx] + rest) == Run(Step(s, tx), rest)
    ensures Decisions(s, [tx] + rest, id) == Decision(s, tx, id) + Decisions(Step(s, tx), rest, id)
  {
    assert ([tx] + rest)[0] == tx && ([tx] + rest)[1..] == rest;
  }

  function Opened(owner: Address, member: Address): Dao {
    Dao(owner, Config(owner, 0, 10, 5, 0, 0, 0), 0, map[], map[member := Power(10, 0, None, 0)], map[], {})
  }

  /** Moving on to another delegate leaves the power behind at the first one. */
  lemma Redelegated(owner: Address, member: Address, first: Address, second: Address)
    requires member != first && member != second && first != second
    ensures var txs := [Tx(1, member, DoDelegate(first)), Tx(2, member, DoDelegate(second))];
            var t := Run(Opened(owner, member), txs);
            && !NeverMovesOn(Opened(owner, member), txs)
            && PowerOf(t, first).delegated == 10 && Delegators(t.powers, first) == map[]
            && PowerOf(t, second).delegated == 10
  {
    var s := Opened(owner, member);
    var t1, t2 := Tx(1, member, DoDelegate(first)), Tx(2, member, DoDelegate(second));
    var s1 := s.(powers := map[member := Power(10, 0, Some(first), 1), first := Power(0, 10, None, 0)]);
    assert Step(s, t1) == s1;
    var s2 := s1.(powers := map[member := Power(10, 0, Some(second), 2), first := Power(0, 10, None, 0),
                                second := Power(0, 10, None, 0)]);
    assert Step(s1, t2) == s2;
    assert [t1, t2] == [t1] + ([t2] + []) && [t1, t2][1..] == [t2];
    OneStep(s, t1, [t2] + [], 0);
    OneStep(s1, t2, [], 0);
  }

  const TERMS: Terms := Terms(FeaturePriority, "", "", [], 0, 0)

  /** One proposal, proposed and won by the only member. */
  function Won(owner: Address, member: Address): Dao {
    Opened(owner, member).(
      counter := 1, proposals := map[0 := Proposal(TERMS, member, 1, 11, 16, 10, 0, 0, Active, true)],
      votes := map[(member, 0) := Vote(For, 10, 2)], voted := {(member, 0)})
  }

  lemma ReachWon(owner: Address, member: Address, rest: seq<Tx>) returns (txs: seq<Tx>)
    ensures Run(Opened(owner, member), txs) == Run(Won(owner, member), rest)
    ensures Decisions(Opened(owner, member), txs, 0) == Decisions(Won(owner, member), rest, 0)
  {
    var s := Opened(owner, member);
    var t1, t2 := Tx(1, member, DoPropose(TERMS)), Tx(2, member, DoVote(0, For));
    txs := [t1] + ([t2] + rest);
    OneStep(s, t1, [t2] + rest, 0);
    var s1 := s.(counter := 1, proposals := map[0 := Proposal(TERMS, member, 1, 11, 16, 0, 0, 0, Active, true)]);
    assert Step(s, t1) == s1;
    OneStep(s1, t2, rest, 0);
    assert Step(s1, t2) == Won(owner, member);
  }

  /** A proposal is executed and then cancelled, and another run executes a cancelled one. */
  lemma StatusFlips(owner: Address, member: Address) returns (a: seq<Tx>, b: seq<Tx>)
    ensures Decisions(Opened(owner, member), a, 0) == [Executed, Cancelled]
    ensures Decisions(Opened(owner, member), b, 0) == [Cancelled, Executed]
  {
    var s, p := Won(owner, member), Won(owner, member).proposals[0];
    var cancel, execute := Tx(20, member, DoCancel(0)), Tx(20, member, DoExecute(0));
    a := ReachWon(owner, member, [execute] + ([cancel] + []));
    OneStep(s, execute, [cancel] + [], 0);
    assert Step(s, execute) == s.(proposals := map[0 := p.(status := Executed)]);
    OneStep(Step(s, execute), cancel, [], 0);
    b := ReachWon(owner, member, [cancel] + ([execute] + []));
    OneStep(s, cancel, [execute] + [], 0);
    assert Step(s, cancel) == s.(proposals := map[0 := p.(status := Cancelled)]);
    OneStep(Step(s, cancel), execute, [], 0);
  }

  // How often one base power counts

  /** The base power of a set of addresses. */
  ghost function PowerIn(s: Dao, us: set<Address>): nat {
    Sum(BasePowers(s, us))
  }

  ghost function BasePowers(s: Dao, us: set<Address>): map<Address, nat> {
    map u | u in us :: PowerOf(s, u).base
  }

  lemma PowerAdd(s: Dao, us: set<Address>, u: Address)
    requires u !in us
    ensures PowerIn(s, us + {u}) == PowerIn(s, us) + PowerOf(s, u).base
  {
    assert BasePowers(s, us + {u}) == BasePowers(s, us)[u := PowerOf(s, u).base];
    SumPut(BasePowers(s, us), u, PowerOf(s, u).base);
  }

  lemma {:induction false} PowerUnion(s: Dao, a: set<Address>, b: set<Address>)
    ensures PowerIn(s, a + b) + PowerIn(s, a * b) == PowerIn(s, a) + PowerIn(s, b)
    decreases a
  {
    if a == {} {
      assert a + b == b && a * b == {};
    } else {
      var u :| u in a;
      var rest := a - {u};
      PowerUnion(s, rest, b);
      PowerAdd(s, rest, u);
      assert rest + {u} == a;
      if u in b {
        assert a + b == rest + b && a * b == rest * b + {u};
        PowerAdd(s, rest * b, u);
      } else {
        assert a + b == rest + b + {u} && a * b == rest * b;
        PowerAdd(s, rest + b, u);
      }
    }
  }

  lemma {:induction false} NoPower(s: Dao, us: set<Address>)
    ensures PowerIn(s, us) == 0 <==> forall u <- us :: PowerOf(s, u).base == 0
    decreases us
  {
    if us != {} {
      var u :| u in us;
      NoPower(s, us - {u});
      PowerAdd(s, us - {u}, u);
      assert us - {u} + {u} == us;
    }
  }

  /** Everyone whose base power stands behind a vote of `v`: `v` and its delegators. */
  ghost function Backers(s: Dao, v: Address): set<Address> {
    {v} + set u | u in s.powers && s.powers[u].to == Some(v)
  }

  /** A vote weighs what its backers hold, and the excess at the voter. */
  lemma WeightOfBackers(s: Dao, v: Address)
    requires NoSelfDelegation(s)
    ensures Weight(s, v) == PowerIn(s, Backers(s, v)) + Excess(s, v)
  {
    var us := set u | u in s.powers && s.powers[u].to == Some(v);
    assert BasePowers(s, us) == Delegators(s.powers, v);
    PowerAdd(s, us, v);
    assert us + {v} == Backers(s, v);
  }

  lemma StepBase(s: Dao, tx: Tx, u: Address)
    ensures PowerOf(Step(s, tx), u).base == PowerOf(s, u).base
  {
    if Attempt(s, tx).Success? {
      match tx.call
      case DoDelegate(_) =>
      case DoUndelegate =>
      case _ => assert Step(s, tx).powers == s.powers;
    }
  }

  lemma StepPower(s: Dao, tx: Tx, us: set<Address>)
    ensures PowerIn(Step(s, tx), us) == PowerIn(s, us)
  {
    forall u <- us ensures PowerOf(Step(s, tx), u).base == PowerOf(s, u).base {
      StepBase(s, tx, u);
    }
    assert BasePowers(Step(s, tx), us) == BasePowers(s, us);
  }

  /** All the power voted on a proposal. */
  function Turnout(s: Dao, id: u32): nat {
    if id in s.proposals
    then s.proposals[id].votesFor + s.proposals[id].votesAgainst + s.proposals[id].votesAbstain else 0
  }

  predicate Votes(s: Dao, tx: Tx, id: u32) {
    tx.call.DoVote? && tx.call.id == id && Attempt(s, tx).Success?
  }

  ghost function BackersOf(s: Dao, tx: Tx, id: u32): set<Address> {
    if Votes(s, tx, id) then Backers(s, tx.who) else {}
  }

  lemma StepTurnout(s: Dao, tx: Tx, id: u32)
    requires Tallied(s)
    ensures Turnout(Step(s, tx), id) == Turnout(s, id) + (if Votes(s, tx, id) then Weight(s, tx.who) else 0)
  {
    if Attempt(s, tx).Success? {
      match tx.call
      case DoPropose(_) =>
      case DoVote(_, _) =>
      case DoExecute(_) =>
      case DoCancel(_) =>
      case _ => assert Step(s, tx).proposals == s.proposals;
    }
  }

  /** Everyone whose base power stands behind some vote of the run, and behind `seen`. */
  ghost function Counted(s: Dao, txs: seq<Tx>, id: u32, seen: set<Address>): set<Address>
    decreases txs
  {
    if txs == [] then seen else Counted(Step(s, txs[0]), txs[1..], id, seen + BackersOf(s, txs[0], id))
  }

  /** The base power counted again after it had been counted. */
  ghost function Recounted(s: Dao, txs: seq<Tx>, id: u32, seen: set<Address>): nat
    decreases txs
  {
    if txs == [] then 0
    else PowerIn(s, seen * BackersOf(s, txs[0], id))
         + Recounted(Step(s, txs[0]), txs[1..], id, seen + BackersOf(s, txs[0], id))
  }

  /** The stranded power voted. */
  ghost function ExcessVoted(s: Dao, txs: seq<Tx>, id: u32): int
    decreases txs
  {
    if txs == [] then 0
    else (if Votes(s, txs[0], id) then Excess(s, txs[0].who) else 0) + ExcessVoted(Step(s, txs[0]), txs[1..], id)
  }

  /** Turnout accounting, exactly: over any run the power voted on a proposal is the base
      power behind its votes, plus what was counted again, plus the stranded power voted. */
  lemma {:induction false} TurnoutAccounting(s: Dao, txs: seq<Tx>, id: u32, seen: set<Address>)
    requires Tallied(s) && NoSelfDelegation(s)
    ensures Turnout(Run(s, txs), id) - Turnout(s, id)
         == PowerIn(s, Counted(s, txs, id, seen)) - PowerIn(s, seen) + Recounted(s, txs, id, seen) + ExcessVoted(s, txs, id)
    decreases txs
  {
    if txs != [] {
      var tx, t := txs[0], Step(s, txs[0]);
      var backers := BackersOf(s, tx, id);
      StepTallied(s, tx);
      StepNoSelf(s, tx);
      StepTurnout(s, tx, id);
      WeightOfBackers(s, tx.who);
      assert PowerIn(s, {}) == 0;
      PowerUnion(s, seen, backers);
      TurnoutAccounting(t, txs[1..], id, seen + backers);
      StepPower(s, tx, seen + backers);
      StepPower(s, tx, Counted(t, txs[1..], id, seen + backers));
    }
  }

  /** No vote of the run on `id` stands on base power that stood behind an earlier one, or
      on stranded power. */
  ghost predicate CountsOnce(s: Dao, txs: seq<Tx>, id: u32, seen: set<Address>)
    decreases txs
  {
    txs == [] ||
    (&& (Votes(s, txs[0], id) ==>
           && Excess(s, txs[0].who) == 0
           && forall u <- Backers(s, txs[0].who) :: u in seen ==> PowerOf(s, u).base == 0)
     && CountsOnce(Step(s, txs[0]), txs[1..], id, seen + BackersOf(s, txs[0], id)))
  }

  /** Delegations never run into a deficit. */
  lemma StepSurplus(s: Dao, tx: Tx)
    requires NoSelfDelegation(s) && forall d :: Excess(s, d) >= 0
    ensures forall d :: Excess(Step(s, tx), d) >= 0
  {
    forall d ensures Excess(Step(s, tx), d) >= 0 {
      StepExcess(s, tx, d);
    }
  }

  lemma VoteCountsOnceIff(s: Dao, tx: Tx, id: u32, seen: set<Address>)
    ensures PowerIn(s, seen * BackersOf(s, tx, id)) == 0
        <==> (Votes(s, tx, id) ==> forall u <- Backers(s, tx.who) :: u in seen ==> PowerOf(s, u).base == 0)
  {
    NoPower(s, seen * BackersOf(s, tx, id));
    if Votes(s, tx, id) {
      assert forall u :: u in seen * BackersOf(s, tx, id) <==> u in seen && u in Backers(s, tx.who);
    } else {
      assert seen * BackersOf(s, tx, id) == {};
    }
  }

  lemma {:induction false} CountsOnceIff(s: Dao, txs: seq<Tx>, id: u32, seen: set<Address>)
    requires NoSelfDelegation(s) && forall d :: Excess(s, d) >= 0
    ensures ExcessVoted(s, txs, id) >= 0
    ensures Recounted(s, txs, id, seen) == 0 && ExcessVoted(s, txs, id) == 0 <==> CountsOnce(s, txs, id, seen)
    decreases txs
  {
    if txs != [] {
      StepSurplus(s, txs[0]);
      StepNoSelf(s, txs[0]);
      VoteCountsOnceIff(s, txs[0], id, seen);
      CountsOnceIff(Step(s, txs[0]), txs[1..], id, seen + BackersOf(s, txs[0], id));
    }
  }

  /** One base power, one count: the turnout of a proposal nobody has voted on yet ends up
      as the base power behind its votes if and only if no vote stands on base power that
      has been counted before, or on stranded power. Otherwise it is more. */
  lemma OnePowerOneCountIff(s: Dao, txs: seq<Tx>, id: u32)
    requires Tallied(s) && NoSelfDelegation(s) && (forall d :: Excess(s, d) >= 0) && Turnout(s, id) == 0
    ensures Turnout(Run(s, txs), id) >= PowerIn(s, Counted(s, txs, id, {}))
    ensures Turnout(Run(s, txs), id) == PowerIn(s, Counted(s, txs, id, {})) <==> CountsOnce(s, txs, id, {})
  {
    TurnoutAccounting(s, txs, id, {});
    CountsOnceIff(s, txs, id, {});
    assert PowerIn(s, {}) == 0;
  }

  /** The base power of all members. */
  ghost function TotalBase(s: Dao): nat {
    PowerIn(s, s.powers.Keys)
  }

  lemma PowerSplit(s: Dao, a: set<Address>, b: set<Address>)
    requires a !! b
    ensures PowerIn(s, a + b) == PowerIn(s, a) + PowerIn(s, b)
  {
    PowerUnion(s, a, b);
    assert a * b == {} && PowerIn(s, {}) == 0;
  }

  lemma WithinTotal(s: Dao, us: set<Address>)
    ensures PowerIn(s, us) <= TotalBase(s)
  {
    var keys := s.powers.Keys;
    var members, others := us * keys, us - keys;
    PowerSplit(s, members, others);
    NoPower(s, others);
    PowerSplit(s, members, keys - members);
    assert members + others == us && members + (keys - members) == keys;
  }

  /** So while every base power counts once, a proposal never gets more than there is. */
  lemma TurnoutWithinTotal(s: Dao, txs: seq<Tx>, id: u32)
    requires Tallied(s) && NoSelfDelegation(s) && (forall d :: Excess(s, d) >= 0) && Turnout(s, id) == 0
    requires CountsOnce(s, txs, id, {})
    ensures Turnout(Run(s, txs), id) <= TotalBase(s)
  {
    OnePowerOneCountIff(s, txs, id);
    WithinTotal(s, Counted(s, txs, id, {}));
  }

  /** Nobody's delegation changes in the run. */
  predicate Settled(s: Dao, txs: seq<Tx>)
    decreases txs
  {
    txs == [] ||
    (&& (txs[0].call.DoDelegate? || txs[0].call.DoUndelegate? ==> Attempt(s, txs[0]).Failure?)
     && Settled(Step(s, txs[0]), txs[1..]))
  }

  /** In such a run, no address that holds base power and has a delegate votes itself. */
  predicate DelegatorsAbstain(s: Dao, txs: seq<Tx>, id: u32)
    decreases txs
  {
    txs == [] ||
    (&& (Votes(s, txs[0], id) ==> PowerOf(s, txs[0].who).to == None || PowerOf(s, txs[0].who).base == 0)
     && DelegatorsAbstain(Step(s, txs[0]), txs[1..], id))
  }

  /** Everyone seen so far with base power stands behind a vote already cast. */
  ghost predicate SeenVoted(s: Dao, id: u32, seen: set<Address>) {
    forall u <- seen | PowerOf(s, u).base > 0 ::
      if PowerOf(s, u).to == None then (u, id) in s.voted else (PowerOf(s, u).to.value, id) in s.voted
  }

  lemma SettledStep(s: Dao, tx: Tx, id: u32, seen: set<Address>)
    requires NoSelfDelegation(s) && SeenVoted(s, id, seen)
    requires tx.call.DoDelegate? || tx.call.DoUndelegate? ==> Attempt(s, tx).Failure?
    requires Votes(s, tx, id) ==> PowerOf(s, tx.who).to == None || PowerOf(s, tx.who).base == 0
    ensures Step(s, tx).powers == s.powers
    ensures SeenVoted(Step(s, tx), id, seen + BackersOf(s, tx, id))
    ensures Votes(s, tx, id) ==> forall u <- Backers(s, tx.who) :: u in seen ==> PowerOf(s, u).base == 0
  {
  }

  /** While delegations stay as they are, it is enough that delegators with base power do
      not vote themselves. */
  lemma {:induction false} SettledCountsOnce(s: Dao, txs: seq<Tx>, id: u32, seen: set<Address>)
    requires NoSelfDelegation(s) && (forall d :: Excess(s, d) == 0) && SeenVoted(s, id, seen)
    requires Settled(s, txs) && DelegatorsAbstain(s, txs, id)
    ensures CountsOnce(s, txs, id, seen)
    decreases txs
  {
    if txs != [] {
      SettledStep(s, txs[0], id, seen);
      var t := Step(s, txs[0]);
      assert forall d :: Excess(t, d) == Excess(s, d);
      SettledCountsOnce(t, txs[1..], id, seen + BackersOf(s, txs[0], id));
    }
  }

  /** A delegate's state after taking over the member's power and voting with it. */
  lemma VoteByProxy(s: Dao, member: Address, proxy: Address, rest: seq<Tx>) returns (txs: seq<Tx>, t: Dao)
    requires member != proxy && PowerOf(s, member).base == 10 && PowerOf(s, member).to == None && PowerOf(s, proxy) == Power(0, 0, None, 0)
    requires 0 in s.proposals && (proxy, 0) !in s.voted
    requires s.proposals[0].start <= 3 <= s.proposals[0].end && s.proposals[0].votesFor <= 100
    ensures txs == [Tx(3, member, DoDelegate(proxy))] + ([Tx(3, proxy, DoVote(0, For))] + rest)
    ensures Run(s, txs) == Run(t, rest) && (NeverMovesOn(s, txs) <==> NeverMovesOn(t, rest))
    ensures t.powers == s.powers[member := PowerOf(s, member).(to := Some(proxy), since := 3)][proxy := Power(0, 10, None, 0)]
    ensures t.proposals == s.proposals[0 := s.proposals[0].(votesFor := s.proposals[0].votesFor + 10)]
    ensures t.voted == s.voted + {(proxy, 0)}
  {
    var delegate, vote := Tx(3, member, DoDelegate(proxy)), Tx(3, proxy, DoVote(0, For));
    txs := [delegate] + ([vote] + rest);
    StepOnce(s, delegate, [vote] + rest);
    var mid := s.(powers := s.powers[member := PowerOf(s, member).(to := Some(proxy), since := 3)][proxy := Power(0, 10, None, 0)]);
    assert Step(s, delegate) == mid;
    StepOnce(mid, vote, rest);
    t := Step(mid, vote);
  }

  /** From a proposal won with all the power there is, 10, a run without a single
      re-delegation that ends with 30 votes for it: delegation moves while voting goes on. */
  lemma CountedThrice(owner: Address, member: Address, a: Address, b: Address) returns (txs: seq<Tx>)
    requires member != a && member != b && a != b
    ensures TotalBase(Won(owner, member)) == 10 && NeverMovesOn(Won(owner, member), txs)
    ensures 0 in Run(Won(owner, member), txs).proposals && Run(Won(owner, member), txs).proposals[0].votesFor == 30
  {
    var s := Won(owner, member);
    assert s.powers.Keys == {} + {member} && PowerIn(s, {}) == 0;
    PowerAdd(s, {}, member);
    var revoke := Tx(3, member, DoUndelegate);
    var later := [revoke] + ([Tx(3, member, DoDelegate(b))] + ([Tx(3, b, DoVote(0, For))] + []));
    var s2;
    txs, s2 := VoteByProxy(s, member, a, later);
    StepOnce(s2, revoke, [Tx(3, member, DoDelegate(b))] + ([Tx(3, b, DoVote(0, For))] + []));
    var s3 := Step(s2, revoke);
    assert s3 == s2.(powers := map[member := Power(10, 0, None, 3), a := Power(0, 0, None, 0)]);
    var last, s5 := VoteByProxy(s3, member, b, []);
  }

  lemma StepOnce(s: Dao, tx: Tx, rest: seq<Tx>)
    ensures Run(s, [tx] + rest) == Run(Step(s, tx), rest)
    ensures NeverMovesOn(s, [tx] + rest) <==>
            && (tx.call.DoDelegate? && Attempt(s, tx).Success? ==> PowerOf(s, tx.who).to == None)
            && NeverMovesOn(Step(s, tx), rest)
  {
    assert ([tx] + rest)[0] == tx && ([tx] + rest)[1..] == rest;
  }
}
