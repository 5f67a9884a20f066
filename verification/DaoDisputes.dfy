/** Disputes: evidence, jurors, votes, finalisation and slashing. */
module DaoDisputes {
  import opened Common

  datatype Error =
    | Unauthorized | DisputeNotFound | EvidencePeriodClosed | NotAssignedAsJuror | AlreadyVoted
    | VotingPeriodClosed | CannotAppeal | InvalidStatus | InvalidParties | Overflow

  datatype Status = Filed | EvidenceSubmitted | Voting | Decided | Appealed | Final | Dropped

  datatype Outcome = PlaintiffWins | DefendantWins | PartiallyUpheld | Dismissed

  datatype Dispute = Dispute(
    plaintiff: Address, defendant: Address, description: string, evidenceUri: string, status: Status,
    jurors: seq<Address>, votesFor: u32, votesAgainst: u32, votesAbstain: u32, outcome: Option<Outcome>,
    stake: u128, filed: u32, evidenceDeadline: u32, votingDeadline: u32, votesCast: u32)

  datatype Assignment = Assignment(hasVoted: bool, vote: Option<Outcome>)

  datatype Appeal = Appeal(disputeId: u32, appellant: Address, reason: string, quorum: u32, status: Status)

  datatype Config = Config(jurors: u32, evidencePeriod: u32, votingPeriod: u32, rewardBps: u32, slashingBps: u32, minStake: u128)

  datatype Court = Court(
    owner: Address, config: Config, disputes: map<u32, Dispute>, counter: u32,
    assignments: map<(u32, Address), Assignment>, ballots: map<(u32, Address), Outcome>, slashed: map<Address, u128>,
    appeals: map<u32, Appeal>, appealCounter: u32)

  function File(s: Court, now: u32, who: Address, defendant: Address, description: string, uri: string, stake: u128)
    : Result<Court, Error>
  {
    if who == defendant then Failure(InvalidParties)
    else if s.counter == U32_MAX || now + s.config.evidencePeriod > U32_MAX then Failure(Overflow)
    else
      var d := Dispute(who, defendant, description, uri, Filed, [], 0, 0, 0, None, stake, now,
                       now + s.config.evidencePeriod, 0, 0);
      Success(s.(counter := s.counter + 1, disputes := s.disputes[s.counter := d]))
  }

  function SubmitEvidence(s: Court, now: u32, who: Address, id: u32, uri: string, asPlaintiff: bool): Result<Court, Error> {
    if id !in s.disputes then Failure(DisputeNotFound)
    else
      var d := s.disputes[id];
      if d.status != Filed || now > d.evidenceDeadline then Failure(EvidencePeriodClosed)
      else if who != (if asPlaintiff then d.plaintiff else d.defendant) then Failure(Unauthorized)
      else if now + s.config.votingPeriod > U32_MAX then Failure(Overflow)
      else Success(s.(disputes := s.disputes[id := d.(evidenceUri := uri, status := EvidenceSubmitted,
                                                      votingDeadline := now + s.config.votingPeriod)]))
  }

  /** The assignment records after `jurors` have been (re)assigned to dispute `id`. */
  function Seat(assignments: map<(u32, Address), Assignment>, id: u32, jurors: seq<Address>)
    : map<(u32, Address), Assignment>
  {
    if jurors == [] then assignments
    else Seat(assignments, id, jurors[..|jurors| - 1])[(id, jurors[|jurors| - 1]) := Assignment(false, None)]
  }

  function AssignJurors(s: Court, who: Address, id: u32, jurors: seq<Address>): Result<Court, Error> {
    if who != s.owner then Failure(Unauthorized)
    else if id !in s.disputes then Failure(DisputeNotFound)
    else if |jurors| != s.config.jurors then Failure(InvalidStatus)
    else Success(s.(assignments := Seat(s.assignments, id, jurors),
                    disputes := s.disputes[id := s.disputes[id].(jurors := jurors, status := Voting)]))
  }

  datatype Side = InFavour | Opposed | Neither

  function SideOf(o: Outcome): Side {
    match o
    case PlaintiffWins => InFavour
    case DefendantWins => Opposed
    case _ => Neither
  }

  function Tally(d: Dispute, side: Side): u32 {
    match side
    case InFavour => d.votesFor
    case Opposed => d.votesAgainst
    case Neither => d.votesAbstain
  }

  function Count(d: Dispute, side: Side): Dispute
    requires Tally(d, side) < U32_MAX && d.votesCast < U32_MAX
  {
    match side
    case InFavour => d.(votesFor := d.votesFor + 1, votesCast := d.votesCast + 1)
    case Opposed => d.(votesAgainst := d.votesAgainst + 1, votesCast := d.votesCast + 1)
    case Neither => d.(votesAbstain := d.votesAbstain + 1, votesCast := d.votesCast + 1)
  }

  function CastVote(s: Court, now: u32, who: Address, id: u32, outcome: Outcome): Result<Court, Error> {
    if id !in s.disputes then Failure(DisputeNotFound)
    else
      var d := s.disputes[id];
      if d.status != Voting || now > d.votingDeadline then Failure(VotingPeriodClosed)
      else if (id, who) !in s.assignments then Failure(NotAssignedAsJuror)
      else if s.assignments[(id, who)].hasVoted then Failure(AlreadyVoted)
      else if Tally(d, SideOf(outcome)) == U32_MAX || d.votesCast == U32_MAX then Failure(Overflow)
      else Success(s.(assignments := s.assignments[(id, who) := Assignment(true, Some(outcome))],
                      ballots := s.ballots[(id, who) := outcome],
                      disputes := s.disputes[id := Count(d, SideOf(outcome))]))
  }

  function Verdict(d: Dispute): Outcome {
    if d.votesFor > d.votesAgainst then PlaintiffWins
    else if d.votesAgainst > d.votesFor then DefendantWins
    else Dismissed
  }

  function SlashedOf(s: Court, who: Address): u128 {
    if who in s.slashed then s.slashed[who] else 0
  }

  function Penalty(s: Court, d: Dispute): nat {
    d.stake * s.config.slashingBps / 10_000
  }

  function Finalize(s: Court, now: u32, who: Address, id: u32): Result<Court, Error> {
    if who != s.owner then Failure(Unauthorized)
    else if id !in s.disputes then Failure(DisputeNotFound)
    else
      var d := s.disputes[id];
      if d.status != Voting then Failure(InvalidStatus)
      else if now <= d.votingDeadline then Failure(VotingPeriodClosed)
      else
        var decided := s.disputes[id := d.(outcome := Some(Verdict(d)), status := Decided)];
        if Verdict(d) != PlaintiffWins then Success(s.(disputes := decided))
        else if d.stake * s.config.slashingBps > U128_MAX || SlashedOf(s, d.defendant) + Penalty(s, d) > U128_MAX
        then Failure(Overflow)
        else Success(s.(disputes := decided,
                        slashed := s.slashed[d.defendant := SlashedOf(s, d.defendant) + Penalty(s, d)]))
  }

  function FileAppeal(s: Court, who: Address, id: u32, reason: string): Result<Court, Error> {
    if id !in s.disputes then Failure(DisputeNotFound)
    else
      var d := s.disputes[id];
      if d.status != Decided then Failure(CannotAppeal)
      else if who != d.plaintiff && who != d.defendant then Failure(Unauthorized)
      else if s.appealCounter == U32_MAX then Failure(Overflow)
      else Success(s.(appealCounter := s.appealCounter + 1,
                      appeals := s.appeals[s.appealCounter := Appeal(id, who, reason, 2, Appealed)]))
  }

  class Contract {
    const owner: Address
    const config: Config
    var disputes: map<u32, Dispute>
    var counter: u32
    var assignments: map<(u32, Address), Assignment>
    var ballots: map<(u32, Address), Outcome>
    var slashed: map<Address, u128>
    var appeals: map<u32, Appeal>
    var appealCounter: u32

    ghost function State(): Court
      reads this
    {
      Court(owner, config, disputes, counter, assignments, ballots, slashed, appeals, appealCounter)
    }

    constructor (owner: Address, config: Config)
      ensures State() == Court(owner, config, map[], 0, map[], map[], map[], map[], 0)
    {
      this.owner, this.config := owner, config;
      disputes, counter, assignments, ballots := map[], 0, map[], map[];
      slashed, appeals, appealCounter := map[], map[], 0;
    }

    method FileDispute(now: u32, plaintiff: Address, defendant: Address, description: string, uri: string, stake: u128)
      returns (id: Result<u32, Error>)
      modifies `disputes, `counter
      ensures Commits(File(old(State()), now, plaintiff, defendant, description, uri, stake), old(State()), State(),
                      if id.Success? then None else Some(id.error))
      ensures id.Success? ==> id.value == old(counter)
    {
      if plaintiff == defendant {
        return Failure(InvalidParties);
      }
      if counter == U32_MAX || now + config.evidencePeriod > U32_MAX {
        return Failure(Overflow);
      }
      var current := counter;
      counter := current + 1;
      disputes := disputes[current := Dispute(plaintiff, defendant, description, uri, Filed, [], 0, 0, 0, None, stake, now,
                                              now + config.evidencePeriod, 0, 0)];
      id := Success(current);
    }

    /** The first submission by either party already closes the evidence period. */
    method Submit(now: u32, submitter: Address, id: u32, uri: string, asPlaintiff: bool) returns (error: Option<Error>)
      modifies `disputes
      ensures Commits(SubmitEvidence(old(State()), now, submitter, id, uri, asPlaintiff), old(State()), State(), error)
    {
      if id !in disputes {
        return Some(DisputeNotFound);
      }
      var dispute := disputes[id];
      if dispute.status != Filed || now > dispute.evidenceDeadline {
        return Some(EvidencePeriodClosed);
      }
      if asPlaintiff && submitter != dispute.plaintiff {
        return Some(Unauthorized);
      }
      if !asPlaintiff && submitter != dispute.defendant {
        return Some(Unauthorized);
      }
      dispute := dispute.(evidenceUri := uri, status := EvidenceSubmitted);
      if now + config.votingPeriod > U32_MAX {
        return Some(Overflow);
      }
      dispute := dispute.(votingDeadline := now + config.votingPeriod);
      disputes := disputes[id := dispute];
      error := None;
    }

    method Assign(caller: Address, id: u32, jurors: seq<Address>) returns (error: Option<Error>)
      modifies `disputes, `assignments
      ensures Commits(AssignJurors(old(State()), caller, id, jurors), old(State()), State(), error)
    {
      if caller != owner {
        return Some(Unauthorized);
      }
      if id !in disputes {
        return Some(DisputeNotFound);
      }
      if |jurors| != config.jurors {
        return Some(InvalidStatus);
      }
      for i := 0 to |jurors|
        invariant disputes == old(disputes) && assignments == Seat(old(assignments), id, jurors[..i])
      {
        assert jurors[..i + 1][..i] == jurors[..i];
        assignments := assignments[(id, jurors[i]) := Assignment(false, None)];
      }
      assert jurors[..|jurors|] == jurors;
      disputes := disputes[id := disputes[id].(jurors := jurors, status := Voting)];
      error := None;
    }

    method CastJurorVote(now: u32, juror: Address, id: u32, outcome: Outcome) returns (error: Option<Error>)
      modifies `disputes, `assignments, `ballots
      ensures Commits(CastVote(old(State()), now, juror, id, outcome), old(State()), State(), error)
    {
      if id !in disputes {
        return Some(DisputeNotFound);
      }
      var dispute := disputes[id];
      if dispute.status != Voting || now > dispute.votingDeadline {
        return Some(VotingPeriodClosed);
      }
      if (id, juror) !in assignments {
        return Some(NotAssignedAsJuror);
      }
      if assignments[(id, juror)].hasVoted {
        return Some(AlreadyVoted);
      }
      if Tally(dispute, SideOf(outcome)) == U32_MAX || dispute.votesCast == U32_MAX {
        return Some(Overflow);
      }
      assignments := assignments[(id, juror) := Assignment(true, Some(outcome))];
      ballots := ballots[(id, juror) := outcome];
      match outcome {
        case PlaintiffWins => dispute := dispute.(votesFor := dispute.votesFor + 1);
        case DefendantWins => dispute := dispute.(votesAgainst := dispute.votesAgainst + 1);
        case _ => dispute := dispute.(votesAbstain := dispute.votesAbstain + 1);
      }
      dispute := dispute.(votesCast := dispute.votesCast + 1);
      disputes := disputes[id := dispute];
      error := None;
    }

    method FinalizeDispute(now: u32, caller: Address, id: u32) returns (error: Option<Error>)
      modifies `disputes, `slashed
      ensures Commits(Finalize(old(State()), now, caller, id), old(State()), State(), error)
    {
      if caller != owner {
        return Some(Unauthorized);
      }
      if id !in disputes {
        return Some(DisputeNotFound);
      }
      var dispute := disputes[id];
      if dispute.status != Voting {
        return Some(InvalidStatus);
      }
      if now <= dispute.votingDeadline {
        return Some(VotingPeriodClosed);
      }
      var outcome := Dismissed;
      if dispute.votesFor > dispute.votesAgainst {
        outcome := PlaintiffWins;
      } else if dispute.votesAgainst > dispute.votesFor {
        outcome := DefendantWins;
      }
      dispute := dispute.(outcome := Some(outcome), status := Decided);
      if outcome == PlaintiffWins {
        var product := dispute.stake * config.slashingBps;
        var current := if dispute.defendant in slashed then slashed[dispute.defendant] else 0;
        if product > U128_MAX || current + product / 10_000 > U128_MAX {
          return Some(Overflow);
        }
        slashed := slashed[dispute.defendant := current + product / 10_000];
      }
      disputes := disputes[id := dispute];
      error := None;
    }

    method AppealDecision(appellant: Address, id: u32, reason: string) returns (error: Option<Error>)
      modifies `appeals, `appealCounter
      ensures Commits(FileAppeal(old(State()), appellant, id, reason), old(State()), State(), error)
    {
      if id !in disputes {
        return Some(DisputeNotFound);
      }
      var dispute := disputes[id];
      if dispute.status != Decided {
        return Some(CannotAppeal);
      }
      if appellant != dispute.plaintiff && appellant != dispute.defendant {
        return Some(Unauthorized);
      }
      if appealCounter == U32_MAX {
        return Some(Overflow);
      }
      var current := appealCounter;
      appealCounter := current + 1;
      appeals := appeals[current := Appeal(id, appellant, reason, 2, Appealed)];
      error := None;
    }
  }
}

/** Whole-run guarantees of the dispute contract. */
module DaoDisputeRuns {
  import opened Common
  import opened DaoDisputes

  datatype Call =
    | DoFile(defendant: Address, description: string, uri: string, stake: u128)
    | DoSubmit(id: u32, uri: string, asPlaintiff: bool)
    | DoAssign(id: u32, jurors: seq<Address>)
    | DoVote(id: u32, outcome: Outcome)
    | DoFinalize(id: u32)
    | DoAppeal(id: u32, reason: string)

  datatype Tx = Tx(now: u32, who: Address, call: Call)

  function Now(tx: Tx): nat { tx.now }

  function Attempt(s: Court, tx: Tx): Result<Court, Error> {
    match tx.call
    case DoFile(defendant, description, uri, stake) => File(s, tx.now, tx.who, defendant, description, uri, stake)
    case DoSubmit(id, uri, asPlaintiff) => SubmitEvidence(s, tx.now, tx.who, id, uri, asPlaintiff)
    case DoAssign(id, jurors) => AssignJurors(s, tx.who, id, jurors)
    case DoVote(id, outcome) => CastVote(s, tx.now, tx.who, id, outcome)
    case DoFinalize(id) => Finalize(s, tx.now, tx.who, id)
    case DoAppeal(id, reason) => FileAppeal(s, tx.who, id, reason)
  }

  function Step(s: Court, tx: Tx): Court {
    match Attempt(s, tx) case Success(t) => t case Failure(_) => s
  }

  function Run(s: Court, txs: seq<Tx>): Court
    decreases txs
  {
    if txs == [] then s else Run(Step(s, txs[0]), txs[1..])
  }

  /** Dispute ids are below the counter, so filing never overwrites one. */
  ghost predicate Numbered(s: Court) {
    forall id <- s.disputes :: id < s.counter
  }

  lemma StepNumbered(s: Court, tx: Tx)
    requires Numbered(s)
    ensures Numbered(Step(s, tx))
    ensures forall id <- s.disputes :: id in Step(s, tx).disputes
  {
    if Attempt(s, tx).Success? {
      match tx.call
      case DoFile(_, _, _, _) =>
      case DoSubmit(_, _, _) =>
      case DoAssign(_, _) =>
      case DoVote(_, _) =>
      case DoFinalize(_) =>
      case DoAppeal(_, _) =>
    }
  }

  /** The votes add up. */
  predicate Balanced(d: Dispute) {
    d.votesFor + d.votesAgainst + d.votesAbstain == d.votesCast
  }

  ghost predicate AllBalanced(s: Court) {
    forall id <- s.disputes :: Balanced(s.disputes[id])
  }

  lemma VoteBalanced(s: Court, now: u32, who: Address, id: u32, outcome: Outcome)
    requires AllBalanced(s) && CastVote(s, now, who, id, outcome).Success?
    ensures AllBalanced(CastVote(s, now, who, id, outcome).value)
  {
  }

  lemma FinalizeBalanced(s: Court, now: u32, who: Address, id: u32)
    requires AllBalanced(s) && Finalize(s, now, who, id).Success?
    ensures AllBalanced(Finalize(s, now, who, id).value)
  {
  }

  lemma BalancedStep(s: Court, tx: Tx)
    requires AllBalanced(s)
    ensures AllBalanced(Step(s, tx))
  {
    if Attempt(s, tx).Success? {
      match tx.call
      case DoVote(id, outcome) => VoteBalanced(s, tx.now, tx.who, id, outcome);
      case DoFinalize(id) => FinalizeBalanced(s, tx.now, tx.who, id);
      case DoFile(_, _, _, _) =>
      case DoSubmit(_, _, _) =>
      case DoAssign(_, _) =>
      case DoAppeal(_, _) => assert Step(s, tx).disputes == s.disputes;
    }
  }

  lemma {:induction false} VotesAddUp(s: Court, txs: seq<Tx>)
    requires AllBalanced(s)
    ensures AllBalanced(Run(s, txs))
    decreases txs
  {
    if txs != [] {
      BalancedStep(s, txs[0]);
      VotesAddUp(Step(s, txs[0]), txs[1..]);
    }
  }

  /** The fields a decision rests on. */
  ghost predicate SameRuling(d: Dispute, e: Dispute) {
    && e.outcome == d.outcome && e.votesCast == d.votesCast && e.votingDeadline == d.votingDeadline
    && e.votesFor == d.votesFor && e.votesAgainst == d.votesAgainst && e.votesAbstain == d.votesAbstain
    && e.plaintiff == d.plaintiff && e.defendant == d.defendant && e.stake == d.stake
  }

  /** Decided once: the deadline has passed and the recorded outcome is the verdict of the tallies. */
  ghost predicate Ruled(d: Dispute, clock: nat) {
    d.status != Filed && d.votingDeadline < clock && d.outcome == Some(Verdict(d))
  }

  lemma AssignKeepsRuling(s: Court, who: Address, at: u32, jurors: seq<Address>, id: u32, clock: nat, now: u32)
    requires id in s.disputes && Ruled(s.disputes[id], clock) && clock <= now && AssignJurors(s, who, at, jurors).Success?
    ensures var t := AssignJurors(s, who, at, jurors).value;
            id in t.disputes && Ruled(t.disputes[id], now) && SameRuling(s.disputes[id], t.disputes[id])
  {
  }

  lemma FinalizeKeepsRuling(s: Court, now: u32, who: Address, at: u32, id: u32, clock: nat)
    requires id in s.disputes && Ruled(s.disputes[id], clock) && clock <= now && Finalize(s, now, who, at).Success?
    ensures var t := Finalize(s, now, who, at).value;
            id in t.disputes && Ruled(t.disputes[id], now) && SameRuling(s.disputes[id], t.disputes[id])
  {
  }

  /** Filing, evidence, votes and appeals do not reach a dispute that is past its deadline. */
  lemma ClosedCase(s: Court, tx: Tx, id: u32)
    requires Numbered(s) && id in s.disputes && s.disputes[id].status != Filed && s.disputes[id].votingDeadline < tx.now
    requires !tx.call.DoAssign? && !tx.call.DoFinalize?
    ensures id in Step(s, tx).disputes && Step(s, tx).disputes[id] == s.disputes[id]
  {
  }

  lemma RuledStep(s: Court, tx: Tx, id: u32, clock: nat)
    requires Numbered(s) && id in s.disputes && Ruled(s.disputes[id], clock) && clock <= tx.now
    ensures Numbered(Step(s, tx)) && id in Step(s, tx).disputes
    ensures Ruled(Step(s, tx).disputes[id], tx.now) && SameRuling(s.disputes[id], Step(s, tx).disputes[id])
  {
    StepNumbered(s, tx);
    match tx.call {
      case DoAssign(at, jurors) =>
        if Attempt(s, tx).Success? {
          AssignKeepsRuling(s, tx.who, at, jurors, id, clock, tx.now);
        }
      case DoFinalize(at) =>
        if Attempt(s, tx).Success? {
          FinalizeKeepsRuling(s, tx.now, tx.who, at, id, clock);
        }
      case _ => ClosedCase(s, tx, id);
    }
  }

  /** The outcome is stable: after a first finalisation, no run changes the tallies or the
      outcome, even one that assigns jurors again and finalises again. */
  lemma {:induction false} OutcomeIsStable(s: Court, txs: seq<Tx>, id: u32, clock: nat)
    requires Numbered(s) && id in s.disputes && Ruled(s.disputes[id], clock) && Clocked(txs, Now, clock)
    ensures id in Run(s, txs).disputes && SameRuling(s.disputes[id], Run(s, txs).disputes[id])
    ensures Numbered(Run(s, txs)) && Ruled(Run(s, txs).disputes[id], EndTime(txs, Now, clock))
    decreases txs
  {
    if txs != [] {
      ClockedTail(txs, Now, clock);
      RuledStep(s, txs[0], id, clock);
      OutcomeIsStable(Step(s, txs[0]), txs[1..], id, txs[0].now);
    }
  }

  /** A finalisation reaches such a state. */
  lemma FinalizeRules(s: Court, tx: Tx, id: u32)
    requires tx.call == DoFinalize(id) && Attempt(s, tx).Success?
    ensures id in Step(s, tx).disputes && Ruled(Step(s, tx).disputes[id], tx.now)
  {
  }

  // Slashing

  function SlashOf(s: Court, tx: Tx, who: Address): nat {
    if && tx.call.DoFinalize? && Attempt(s, tx).Success?
       && Verdict(s.disputes[tx.call.id]) == PlaintiffWins && s.disputes[tx.call.id].defendant == who
    then Penalty(s, s.disputes[tx.call.id]) else 0
  }

  function AllSlashes(s: Court, txs: seq<Tx>, who: Address): nat
    decreases txs
  {
    if txs == [] then 0 else SlashOf(s, txs[0], who) + AllSlashes(Step(s, txs[0]), txs[1..], who)
  }

  lemma SlashStep(s: Court, tx: Tx, who: Address)
    ensures SlashedOf(Step(s, tx), who) == SlashedOf(s, who) + SlashOf(s, tx, who)
  {
  }

  /** What is recorded as slashed is the sum of the penalties of all accepted finalisations. */
  lemma {:induction false} SlashingAccounting(s: Court, txs: seq<Tx>, who: Address)
    ensures SlashedOf(Run(s, txs), who) == SlashedOf(s, who) + AllSlashes(s, txs, who)
    decreases txs
  {
    if txs != [] {
      SlashStep(s, txs[0], who);
      SlashingAccounting(Step(s, txs[0]), txs[1..], who);
    }
  }

  function Finalizations(s: Court, txs: seq<Tx>, id: u32): nat
    decreases txs
  {
    if txs == [] then 0
    else (if txs[0].call == DoFinalize(id) && Attempt(s, txs[0]).Success? then 1 else 0)
         + Finalizations(Step(s, txs[0]), txs[1..], id)
  }

  function Assignments(s: Court, txs: seq<Tx>, id: u32): nat
    decreases txs
  {
    if txs == [] then 0
    else (if txs[0].call.DoAssign? && txs[0].call.id == id && Attempt(s, txs[0]).Success? then 1 else 0)
         + Assignments(Step(s, txs[0]), txs[1..], id)
  }

  predicate InVoting(s: Court, id: u32) {
    id in s.disputes && s.disputes[id].status == Voting
  }

  /** Voting opens with an assignment and closes with a finalisation. */
  lemma StepVoting(s: Court, tx: Tx, id: u32)
    requires Numbered(s)
    ensures Numbered(Step(s, tx))
    ensures var final := tx.call == DoFinalize(id) && Attempt(s, tx).Success?;
            var seated := tx.call.DoAssign? && tx.call.id == id && Attempt(s, tx).Success?;
            && (final ==> InVoting(s, id))
            && InVoting(Step(s, tx), id) == (seated || (InVoting(s, id) && !final))
  {
    StepNumbered(s, tx);
    if Attempt(s, tx).Success? {
      match tx.call
      case DoFile(_, _, _, _) =>
      case DoSubmit(_, _, _) =>
      case DoAssign(_, _) =>
      case DoVote(_, _) =>
      case DoFinalize(_) =>
      case DoAppeal(_, _) =>
    }
  }

  /** Accepted assignments that open the voting, rather than replace jurors during it. */
  function Openings(s: Court, txs: seq<Tx>, id: u32): nat
    decreases txs
  {
    if txs == [] then 0
    else (if txs[0].call.DoAssign? && txs[0].call.id == id && Attempt(s, txs[0]).Success? && !InVoting(s, id) then 1 else 0)
         + Openings(Step(s, txs[0]), txs[1..], id)
  }

  /** Exactly one finalisation per opening of the voting, but for one still to come. */
  lemma {:induction false} FinalizedOncePerOpening(s: Court, txs: seq<Tx>, id: u32)
    requires Numbered(s)
    ensures Finalizations(s, txs, id) + (if InVoting(Run(s, txs), id) then 1 else 0)
         == Openings(s, txs, id) + (if InVoting(s, id) then 1 else 0)
    decreases txs
  {
    if txs != [] {
      StepVoting(s, txs[0], id);
      FinalizedOncePerOpening(Step(s, txs[0]), txs[1..], id);
    }
  }

  /** The first assignment after a decision opens the voting. */
  lemma {:induction false} OpensIff(s: Court, txs: seq<Tx>, id: u32)
    requires Numbered(s)
    ensures Openings(s, txs, id) <= Assignments(s, txs, id)
    ensures !InVoting(s, id) ==> (Openings(s, txs, id) > 0 <==> Assignments(s, txs, id) > 0)
    decreases txs
  {
    if txs != [] {
      StepVoting(s, txs[0], id);
      OpensIff(Step(s, txs[0]), txs[1..], id);
    }
  }

  /** So a dispute is finalised, and charged, at most once per accepted assignment. */
  lemma FinalizedOncePerAssignment(s: Court, txs: seq<Tx>, id: u32)
    requires Numbered(s)
    ensures Finalizations(s, txs, id) <= Assignments(s, txs, id) + (if InVoting(s, id) then 1 else 0)
  {
    FinalizedOncePerOpening(s, txs, id);
    OpensIff(s, txs, id);
  }

  lemma {:induction false} FinalizationsAppend(s: Court, a: seq<Tx>, b: seq<Tx>, id: u32)
    ensures Run(s, a + b) == Run(Run(s, a), b)
    ensures Finalizations(s, a + b, id) == Finalizations(s, a, id) + Finalizations(Run(s, a), b, id)
    decreases a
  {
    if a == [] {
      assert a + b == b;
    } else {
      assert (a + b)[1..] == a[1..] + b;
      FinalizationsAppend(Step(s, a[0]), a[1..], b, id);
    }
  }

  lemma StepConstants(s: Court, tx: Tx)
    ensures Step(s, tx).owner == s.owner && Step(s, tx).config == s.config
  {
    if Attempt(s, tx).Success? {
      match tx.call
      case DoFile(_, _, _, _) =>
      case DoSubmit(_, _, _) =>
      case DoAssign(_, _) =>
      case DoVote(_, _) =>
      case DoFinalize(_) =>
      case DoAppeal(_, _) =>
    }
  }

  lemma {:induction false} Constants(s: Court, txs: seq<Tx>)
    ensures Run(s, txs).owner == s.owner && Run(s, txs).config == s.config
    decreases txs
  {
    if txs != [] {
      StepConstants(s, txs[0]);
      Constants(Step(s, txs[0]), txs[1..]);
    }
  }

  /** Charging the penalty of `id` once more stays within 128 bits. */
  predicate Chargeable(s: Court, id: u32)
    requires id in s.disputes
  {
    var d := s.disputes[id];
    && d.stake * s.config.slashingBps <= U128_MAX
    && SlashedOf(s, d.defendant) + Penalty(s, d) <= U128_MAX
  }

  /** A dispute that was finalised can be finalised again exactly while its voting is open. */
  lemma FinalizesAgainIff(s: Court, id: u32, clock: nat, tx: Tx)
    requires id in s.disputes && Ruled(s.disputes[id], clock) && clock <= tx.now && Chargeable(s, id)
    requires tx.who == s.owner && tx.call == DoFinalize(id)
    ensures Finalizations(s, [tx], id) == if InVoting(s, id) then 1 else 0
    ensures SlashedOf(Step(s, tx), s.disputes[id].defendant)
         == SlashedOf(s, s.disputes[id].defendant)
            + (if InVoting(s, id) && Verdict(s.disputes[id]) == PlaintiffWins then Penalty(s, s.disputes[id]) else 0)
  {
    assert Finalizations(Step(s, tx), [tx][1..], id) == 0;
  }

  /** A decided dispute is finalised again, in a run that ends with the owner's attempt,
      if and only if an assignment of jurors was accepted after the decision. */
  lemma FinalizedAgainIff(s: Court, txs: seq<Tx>, last: Tx, id: u32, clock: nat)
    requires Numbered(s) && id in s.disputes && Ruled(s.disputes[id], clock) && !InVoting(s, id)
    requires Clocked(txs, Now, clock) && EndTime(txs, Now, clock) <= last.now
    requires last.who == s.owner && last.call == DoFinalize(id)
    requires id in Run(s, txs).disputes && Chargeable(Run(s, txs), id)
    ensures Finalizations(s, txs + [last], id) > 0 <==> Assignments(s, txs, id) > 0
  {
    var t := Run(s, txs);
    OutcomeIsStable(s, txs, id, clock);
    Constants(s, txs);
    FinalizesAgainIff(t, id, EndTime(txs, Now, clock), last);
    FinalizationsAppend(s, txs, [last], id);
    FinalizedOncePerOpening(s, txs, id);
    OpensIff(s, txs, id);
  }

  function ChargeOf(s: Court, tx: Tx, id: u32): nat {
    if tx.call == DoFinalize(id) && Attempt(s, tx).Success? && Verdict(s.disputes[id]) == PlaintiffWins
    then Penalty(s, s.disputes[id]) else 0
  }

  /** What the finalisations of one dispute charge its defendant. */
  function Charges(s: Court, txs: seq<Tx>, id: u32): nat
    decreases txs
  {
    if txs == [] then 0 else ChargeOf(s, txs[0], id) + Charges(Step(s, txs[0]), txs[1..], id)
  }

  /** Every finalisation after the first charges the same penalty again. */
  lemma {:induction false} EveryFinalizationCharges(s: Court, txs: seq<Tx>, id: u32, clock: nat)
    requires Numbered(s) && id in s.disputes && Ruled(s.disputes[id], clock) && Clocked(txs, Now, clock)
    requires Verdict(s.disputes[id]) == PlaintiffWins
    ensures Charges(s, txs, id) == Finalizations(s, txs, id) * Penalty(s, s.disputes[id])
    decreases txs
  {
    if txs != [] {
      ClockedTail(txs, Now, clock);
      RuledStep(s, txs[0], id, clock);
      StepConstants(s, txs[0]);
      EveryFinalizationCharges(Step(s, txs[0]), txs[1..], id, txs[0].now);
      var n, p := Finalizations(Step(s, txs[0]), txs[1..], id), Penalty(s, s.disputes[id]);
      assert (1 + n) * p == p + n * p;
    }
  }

  /** From a decided dispute the plaintiff won: the owner seats jurors again, finalises
      again, and the defendant pays the same penalty again. */
  lemma SecondCharge(s: Court, id: u32, jurors: seq<Address>, t1: u32, t2: u32)
    requires id in s.disputes && Ruled(s.disputes[id], t1) && t1 <= t2 && Chargeable(s, id)
    requires Verdict(s.disputes[id]) == PlaintiffWins && |jurors| == s.config.jurors
    ensures var txs := [Tx(t1, s.owner, DoAssign(id, jurors)), Tx(t2, s.owner, DoFinalize(id))];
            && Finalizations(s, txs, id) == 1
            && SlashedOf(Run(s, txs), s.disputes[id].defendant)
               == SlashedOf(s, s.disputes[id].defendant) + Penalty(s, s.disputes[id])
  {
    var seat, final := Tx(t1, s.owner, DoAssign(id, jurors)), Tx(t2, s.owner, DoFinalize(id));
    var t := Step(s, seat);
    FinalizesAgainIff(t, id, t1, final);
    assert [seat, final][1..] == [final] && [final][1..] == [];
    assert Run(Step(t, final), []) == Step(t, final);
    assert Run(t, [final]) == Step(t, final);
  }

  lemma OneStep(s: Court, tx: Tx, rest: seq<Tx>, id: u32)
    ensures Run(s, [tx] + rest) == Run(Step(s, tx), rest)
    ensures Finalizations(s, [tx] + rest, id)
         == Finalizations(Step(s, tx), rest, id) + (if tx.call == DoFinalize(id) && Attempt(s, tx).Success? then 1 else 0)
  {
    assert ([tx] + rest)[0] == tx && ([tx] + rest)[1..] == rest;
  }

  const SMALL_COURT: Config := Config(1, 10, 10, 0, 1_000, 0)

  function Opened(owner: Address): Court {
    Court(owner, SMALL_COURT, map[], 0, map[], map[], map[], map[], 0)
  }

  /** A dispute is filed, evidence submitted and a juror seated. */
  lemma Heard(owner: Address, plaintiff: Address, defendant: Address, juror: Address) returns (t: Court, txs: seq<Tx>)
    requires plaintiff != defendant
    ensures Clocked(txs, Now, 0) && EndTime(txs, Now, 0) == 3 && Run(Opened(owner), txs) == t
    ensures Finalizations(Opened(owner), txs, 0) == 0
    ensures t.owner == owner && t.config == SMALL_COURT && t.slashed == map[]
    ensures t.assignments == map[(0, juror) := Assignment(false, None)] && t.disputes.Keys == {0}
    ensures t.disputes[0] == Dispute(plaintiff, defendant, "", "", Voting, [juror], 0, 0, 0, None, 10_000, 1, 11, 12, 0)
  {
    var s := Opened(owner);
    var t1, t2, t3 := Tx(1, plaintiff, DoFile(defendant, "", "", 10_000)), Tx(2, plaintiff, DoSubmit(0, "", true)),
                      Tx(3, owner, DoAssign(0, [juror]));
    txs := [t1, t2, t3];
    assert txs == [t1] + ([t2] + ([t3] + []));
    var filed := Dispute(plaintiff, defendant, "", "", Filed, [], 0, 0, 0, None, 10_000, 1, 11, 0, 0);
    OneStep(s, t1, [t2] + ([t3] + []), 0);
    var s1 := s.(counter := 1, disputes := map[0 := filed]);
    assert Step(s, t1) == s1;
    OneStep(s1, t2, [t3] + [], 0);
    var s2 := s1.(disputes := map[0 := filed.(status := EvidenceSubmitted, votingDeadline := 12)]);
    assert Step(s1, t2) == s2;
    OneStep(s2, t3, [], 0);
    assert Seat(map[], 0, [juror]) == map[(0, juror) := Assignment(false, None)] by {
      assert [juror][..0] == [];
    }
    t := Step(s2, t3);
    assert t == s2.(assignments := map[(0, juror) := Assignment(false, None)],
                    disputes := s2.disputes[0 := s2.disputes[0].(jurors := [juror], status := Voting)]);
  }

  /** The juror votes for the plaintiff and the owner finalises. */
  lemma FirstCharge(s: Court, juror: Address) returns (txs: seq<Tx>, t: Court)
    requires 0 in s.disputes && Balanced(s.disputes[0]) && s.disputes[0].votesCast == 0 && s.disputes[0].status == Voting
    requires s.disputes[0].votingDeadline == 12 && s.disputes[0].stake == 10_000 && s.config == SMALL_COURT && s.slashed == map[]
    requires (0, juror) in s.assignments && !s.assignments[(0, juror)].hasVoted
    ensures Clocked(txs, Now, 3) && EndTime(txs, Now, 3) == 13 && Finalizations(s, txs, 0) == 1
    ensures var d := s.disputes[0];
            && t == Run(s, txs) && t.owner == s.owner && t.config == s.config && SlashedOf(t, d.defendant) == 1_000
            && 0 in t.disputes && Ruled(t.disputes[0], 14) && Verdict(t.disputes[0]) == PlaintiffWins
            && t.disputes[0].stake == 10_000 && t.disputes[0].defendant == d.defendant
  {
    var t4, t5 := Tx(4, juror, DoVote(0, PlaintiffWins)), Tx(13, s.owner, DoFinalize(0));
    txs := [t4, t5];
    assert txs == [t4] + ([t5] + []);
    OneStep(s, t4, [t5] + [], 0);
    var voted := s.disputes[0].(votesFor := 1, votesCast := 1);
    var s4 := s.(assignments := s.assignments[(0, juror) := Assignment(true, Some(PlaintiffWins))],
                 ballots := s.ballots[(0, juror) := PlaintiffWins], disputes := s.disputes[0 := voted]);
    assert Step(s, t4) == s4;
    OneStep(s4, t5, [], 0);
    FinalizeRules(s4, t5, 0);
    assert Penalty(s4, voted) == 1_000;
    t := Run(s, txs);
  }

  /** A run from the empty court in which one dispute costs its defendant the penalty twice. */
  lemma ChargedTwice(owner: Address, plaintiff: Address, defendant: Address, juror: Address) returns (txs: seq<Tx>)
    requires plaintiff != defendant
    ensures Clocked(txs, Now, 0) && Finalizations(Opened(owner), txs, 0) == 2
    ensures SlashedOf(Run(Opened(owner), txs), defendant) == 2_000
  {
    var t, head := Heard(owner, plaintiff, defendant, juror);
    var next, decided := FirstCharge(t, juror);
    var again := [Tx(14, owner, DoAssign(0, [juror])), Tx(15, owner, DoFinalize(0))];
    SecondCharge(decided, 0, [juror], 14, 15);
    FinalizationsAppend(t, next, again, 0);
    FinalizationsAppend(Opened(owner), head, next + again, 0);
    ClockedAppend(next, again, Now, 3);
    ClockedAppend(head, next + again, Now, 0);
    txs := head + (next + again);
  }

  // Hearing

  predicate Submits(s: Court, tx: Tx, id: u32) {
    tx.call.DoSubmit? && tx.call.id == id && Attempt(s, tx).Success?
  }

  predicate Assigns(s: Court, tx: Tx, id: u32) {
    tx.call.DoAssign? && tx.call.id == id && Attempt(s, tx).Success?
  }

  /** The ledger at which a run accepts evidence for a dispute. */
  function Hearing(s: Court, txs: seq<Tx>, id: u32): Option<u32>
    decreases txs
  {
    if txs == [] then None
    else if Submits(s, txs[0], id) then Some(txs[0].now)
    else Hearing(Step(s, txs[0]), txs[1..], id)
  }

  /** Evidence is accepted before any jurors are assigned. */
  predicate EvidenceFirst(s: Court, txs: seq<Tx>, id: u32)
    decreases txs
  {
    txs != [] &&
    (|| Submits(s, txs[0], id)
     || (!Assigns(s, txs[0], id) && EvidenceFirst(Step(s, txs[0]), txs[1..], id)))
  }

  /** Evidence closes and sets the deadline once; assigning jurors closes it as well. */
  lemma StepDeadline(s: Court, tx: Tx, id: u32)
    requires Numbered(s) && id in s.disputes
    ensures id in Step(s, tx).disputes
    ensures var d, e := s.disputes[id], Step(s, tx).disputes[id];
            && (Submits(s, tx, id) ==> d.status == Filed)
            && e.votingDeadline == (if Submits(s, tx, id) then tx.now + s.config.votingPeriod else d.votingDeadline)
            && (e.status == Filed <==> d.status == Filed && !Submits(s, tx, id) && !Assigns(s, tx, id))
  {
    StepNumbered(s, tx);
    if Attempt(s, tx).Success? {
      match tx.call
      case DoFinalize(at) => FinalizeDeadline(s, tx.now, tx.who, at, id);
      case DoVote(at, outcome) => VoteDeadline(s, tx.now, tx.who, at, outcome, id);
      case DoFile(_, _, _, _) =>
      case DoSubmit(_, _, _) =>
      case DoAssign(_, _) =>
      case DoAppeal(_, _) => assert Step(s, tx).disputes == s.disputes;
    }
  }

  lemma FinalizeDeadline(s: Court, now: u32, who: Address, at: u32, id: u32)
    requires id in s.disputes && Finalize(s, now, who, at).Success?
    ensures var t := Finalize(s, now, who, at).value;
            && id in t.disputes && t.disputes[id].votingDeadline == s.disputes[id].votingDeadline
            && (t.disputes[id].status == Filed <==> s.disputes[id].status == Filed)
  {
  }

  lemma VoteDeadline(s: Court, now: u32, who: Address, at: u32, outcome: Outcome, id: u32)
    requires id in s.disputes && CastVote(s, now, who, at, outcome).Success?
    ensures var t := CastVote(s, now, who, at, outcome).value;
            && id in t.disputes && t.disputes[id].votingDeadline == s.disputes[id].votingDeadline
            && t.disputes[id].status == s.disputes[id].status
  {
  }

  /** Once a dispute is no longer filed, no evidence is accepted and its deadline stays. */
  lemma {:induction false} EvidenceClosed(s: Court, txs: seq<Tx>, id: u32)
    requires Numbered(s) && id in s.disputes && s.disputes[id].status != Filed
    ensures Hearing(s, txs, id) == None
    ensures id in Run(s, txs).disputes && Run(s, txs).disputes[id].votingDeadline == s.disputes[id].votingDeadline
    decreases txs
  {
    if txs != [] {
      StepNumbered(s, txs[0]);
      StepDeadline(s, txs[0], id);
      EvidenceClosed(Step(s, txs[0]), txs[1..], id);
    }
  }

  /** Of a dispute that is filed, evidence is ever accepted if and only if that comes before
      the first assignment of jurors, and the voting deadline is one period after it. */
  lemma {:induction false} HearingIff(s: Court, txs: seq<Tx>, id: u32)
    requires Numbered(s) && id in s.disputes && s.disputes[id].status == Filed
    ensures Hearing(s, txs, id).Some? <==> EvidenceFirst(s, txs, id)
    ensures id in Run(s, txs).disputes
    ensures Run(s, txs).disputes[id].votingDeadline == match Hearing(s, txs, id)
                                                       case Some(at) => at + s.config.votingPeriod
                                                       case None => s.disputes[id].votingDeadline
    decreases txs
  {
    if txs != [] {
      var t := Step(s, txs[0]);
      StepNumbered(s, txs[0]);
      StepConstants(s, txs[0]);
      StepDeadline(s, txs[0], id);
      if Submits(s, txs[0], id) || Assigns(s, txs[0], id) {
        EvidenceClosed(t, txs[1..], id);
      } else {
        HearingIff(t, txs[1..], id);
      }
    }
  }

  /** Only a vote before the deadline changes the number of votes cast. */
  lemma StepVotesCast(s: Court, tx: Tx, id: u32)
    requires Numbered(s) && id in s.disputes
    ensures id in Step(s, tx).disputes
    ensures s.disputes[id].votingDeadline < tx.now ==> Step(s, tx).disputes[id].votesCast == s.disputes[id].votesCast
  {
    StepNumbered(s, tx);
    if Attempt(s, tx).Success? {
      match tx.call
      case DoFinalize(at) => FinalizeVotesCast(s, tx.now, tx.who, at, id);
      case DoVote(_, _) =>
      case DoFile(_, _, _, _) =>
      case DoSubmit(_, _, _) =>
      case DoAssign(_, _) =>
      case DoAppeal(_, _) => assert Step(s, tx).disputes == s.disputes;
    }
  }

  lemma FinalizeVotesCast(s: Court, now: u32, who: Address, at: u32, id: u32)
    requires id in s.disputes && Finalize(s, now, who, at).Success?
    ensures id in Finalize(s, now, who, at).value.disputes
    ensures Finalize(s, now, who, at).value.disputes[id].votesCast == s.disputes[id].votesCast
  {
  }

  /** Without a hearing nobody can vote: ledger numbers start at one, the deadline is zero. */
  lemma {:induction false} UnheardVotes(s: Court, txs: seq<Tx>, id: u32)
    requires Numbered(s) && id in s.disputes && s.disputes[id].votingDeadline == 0
    requires Clocked(txs, Now, 1) && Hearing(s, txs, id) == None
    ensures id in Run(s, txs).disputes && Run(s, txs).disputes[id].votesCast == s.disputes[id].votesCast
    decreases txs
  {
    if txs != [] {
      StepNumbered(s, txs[0]);
      StepDeadline(s, txs[0], id);
      StepVotesCast(s, txs[0], id);
      ClockedTail(txs, Now, 1);
      UnheardVotes(Step(s, txs[0]), txs[1..], id);
    }
  }

  /** A dispute as filing leaves it. */
  predicate JustFiled(d: Dispute) {
    d.status == Filed && d.votingDeadline == 0 && d.votesFor == 0 && d.votesAgainst == 0 && d.votesAbstain == 0 && d.votesCast == 0
  }

  /** A dispute is finalised a whole voting period after its evidence if and only if
      evidence was accepted before the first assignment of jurors. Otherwise no vote was
      ever cast and the outcome is a dismissal. */
  lemma HeardIff(s: Court, txs: seq<Tx>, last: Tx, id: u32)
    requires Numbered(s) && AllBalanced(s) && id in s.disputes && JustFiled(s.disputes[id]) && Clocked(txs, Now, 1)
    requires last.call == DoFinalize(id) && Attempt(Run(s, txs), last).Success?
    ensures (match Hearing(s, txs, id) case Some(at) => last.now > at + s.config.votingPeriod case None => false)
        <==> EvidenceFirst(s, txs, id)
    ensures !EvidenceFirst(s, txs, id) ==>
              && id in Run(s, txs).disputes && Run(s, txs).disputes[id].votesCast == 0
              && id in Step(Run(s, txs), last).disputes && Step(Run(s, txs), last).disputes[id].outcome == Some(Dismissed)
  {
    HearingIff(s, txs, id);
    FinalizeRules(Run(s, txs), last, id);
    if !EvidenceFirst(s, txs, id) {
      UnheardVotes(s, txs, id);
      VotesAddUp(s, txs);
    }
  }

  /** Every filed dispute can be decided in the same ledger, unheard: the owner assigns
      jurors and finalises. */
  lemma DecidedUnheard(s: Court, id: u32, jurors: seq<Address>, now: u32)
    requires id in s.disputes && JustFiled(s.disputes[id]) && |jurors| == s.config.jurors && now > 0
    ensures var txs := [Tx(now, s.owner, DoAssign(id, jurors)), Tx(now, s.owner, DoFinalize(id))];
            && !EvidenceFirst(s, txs, id) && id in Run(s, txs).disputes
            && Run(s, txs).disputes[id].status == Decided && Run(s, txs).disputes[id].outcome == Some(Dismissed)
  {
    var seat, final := Tx(now, s.owner, DoAssign(id, jurors)), Tx(now, s.owner, DoFinalize(id));
    var t := Step(s, seat);
    assert t.disputes == s.disputes[id := s.disputes[id].(jurors := jurors, status := Voting)];
    FinalizeRules(t, final, id);
    assert [seat, final][1..] == [final] && [final][1..] == [];
    assert Run(t, [final]) == Run(Step(t, final), []) == Step(t, final);
  }

  /** A run from the empty court, all in one ledger, that decides a dispute unheard. */
  lemma UnheardRun(owner: Address, plaintiff: Address, defendant: Address, juror: Address)
    requires plaintiff != defendant
    ensures var txs := [Tx(1, plaintiff, DoFile(defendant, "", "", 10_000))]
                       + [Tx(1, owner, DoAssign(0, [juror])), Tx(1, owner, DoFinalize(0))];
            var t := Run(Opened(owner), txs);
            0 in t.disputes && t.disputes[0].status == Decided && t.disputes[0].outcome == Some(Dismissed)
  {
    var file := Tx(1, plaintiff, DoFile(defendant, "", "", 10_000));
    var rest := [Tx(1, owner, DoAssign(0, [juror])), Tx(1, owner, DoFinalize(0))];
    OneStep(Opened(owner), file, rest, 0);
    DecidedUnheard(Step(Opened(owner), file), 0, [juror], 1);
  }

  // Jurors

  /** The jurors of a dispute who are recorded as having voted for one side. */
  ghost function Voters(assignments: map<(u32, Address), Assignment>, id: u32, side: Side): set<(u32, Address)> {
    set k | k in assignments && k.0 == id && assignments[k].hasVoted
            && assignments[k].vote.Some? && SideOf(assignments[k].vote.value) == side
  }

  /** The jurors of a dispute who are recorded as having voted at all. */
  ghost function AllVoters(assignments: map<(u32, Address), Assignment>, id: u32): set<(u32, Address)> {
    set k | k in assignments && k.0 == id && assignments[k].hasVoted
  }

  /** Jurors are assigned to filed disputes only, and whoever has voted has a vote on
      record, the same in both places that keep it. */
  ghost predicate Seated(s: Court) {
    && Numbered(s)
    && (forall k <- s.assignments :: k.0 in s.disputes)
    && (forall k <- s.assignments :: s.assignments[k].hasVoted ==>
          k in s.ballots && s.assignments[k].vote == Some(s.ballots[k]))
  }

  function TallyOf(s: Court, id: u32, side: Side): nat {
    if id in s.disputes then Tally(s.disputes[id], side) else 0
  }

  /** Counted votes of one side beyond the jurors still recorded as having cast one. */
  ghost function Gap(s: Court, id: u32, side: Side): int {
    TallyOf(s, id, side) - |Voters(s.assignments, id, side)|
  }

  /** Voters whose record an assignment erases by seating them again. */
  ghost function Forgotten(s: Court, tx: Tx, id: u32, side: Side): set<(u32, Address)> {
    if tx.call.DoAssign? && tx.call.id == id && Attempt(s, tx).Success?
    then set k | k in Voters(s.assignments, id, side) && k.1 in tx.call.jurors
    else {}
  }

  ghost function AllForgotten(s: Court, txs: seq<Tx>, id: u32, side: Side): nat
    decreases txs
  {
    if txs == [] then 0 else |Forgotten(s, txs[0], id, side)| + AllForgotten(Step(s, txs[0]), txs[1..], id, side)
  }

  lemma {:induction false} SeatAt(assignments: map<(u32, Address), Assignment>, id: u32, jurors: seq<Address>)
    ensures forall k :: k in Seat(assignments, id, jurors) <==> k in assignments || (k.0 == id && k.1 in jurors)
    ensures forall k <- Seat(assignments, id, jurors) ::
              Seat(assignments, id, jurors)[k] == if k.0 == id && k.1 in jurors then Assignment(false, None) else assignments[k]
    decreases jurors
  {
    if jurors != [] {
      SeatAt(assignments, id, jurors[..|jurors| - 1]);
      assert forall j :: j in jurors <==> j in jurors[..|jurors| - 1] || j == jurors[|jurors| - 1];
    }
  }

  lemma AssignSeated(s: Court, who: Address, id: u32, jurors: seq<Address>)
    requires Seated(s) && AssignJurors(s, who, id, jurors).Success?
    ensures Seated(AssignJurors(s, who, id, jurors).value)
  {
    SeatAt(s.assignments, id, jurors);
  }

  lemma VoteSeated(s: Court, now: u32, who: Address, id: u32, outcome: Outcome)
    requires Seated(s) && CastVote(s, now, who, id, outcome).Success?
    ensures Seated(CastVote(s, now, who, id, outcome).value)
  {
  }

  lemma StepSeated(s: Court, tx: Tx)
    requires Seated(s)
    ensures Seated(Step(s, tx))
  {
    StepNumbered(s, tx);
    if Attempt(s, tx).Success? {
      match tx.call
      case DoAssign(id, jurors) => AssignSeated(s, tx.who, id, jurors);
      case DoVote(id, outcome) => VoteSeated(s, tx.now, tx.who, id, outcome);
      case _ => assert Step(s, tx).assignments == s.assignments && Step(s, tx).ballots == s.ballots;
    }
  }

  /** Seating jurors erases the votes of those among them who had voted. */
  lemma SeatVoters(m: map<(u32, Address), Assignment>, at: u32, jurors: seq<Address>, id: u32, side: Side)
    ensures |Voters(Seat(m, at, jurors), id, side)|
         == |Voters(m, id, side)| - (if at == id then |set k | k in Voters(m, id, side) && k.1 in jurors| else 0)
  {
    var before := Voters(m, id, side);
    SeatAt(m, at, jurors);
    if at == id {
      var lost := set k | k in before && k.1 in jurors;
      assert Voters(Seat(m, at, jurors), id, side) == before - lost;
      assert |before - lost| == |before| - |lost|;
    } else {
      assert Voters(Seat(m, at, jurors), id, side) == before;
    }
  }

  lemma VoterAdded(m: map<(u32, Address), Assignment>, key: (u32, Address), outcome: Outcome, id: u32, side: Side)
    requires key in m && !m[key].hasVoted
    ensures |Voters(m[key := Assignment(true, Some(outcome))], id, side)|
         == |Voters(m, id, side)| + (if key.0 == id && SideOf(outcome) == side then 1 else 0)
  {
    var before := Voters(m, id, side);
    if key.0 == id && SideOf(outcome) == side {
      assert Voters(m[key := Assignment(true, Some(outcome))], id, side) == before + {key};
    } else {
      assert Voters(m[key := Assignment(true, Some(outcome))], id, side) == before;
    }
  }

  lemma VoteTally(s: Court, now: u32, who: Address, at: u32, outcome: Outcome, id: u32, side: Side)
    requires CastVote(s, now, who, at, outcome).Success?
    ensures TallyOf(CastVote(s, now, who, at, outcome).value, id, side)
         == TallyOf(s, id, side) + (if at == id && SideOf(outcome) == side then 1 else 0)
  {
  }

  lemma FinalizeTally(s: Court, now: u32, who: Address, at: u32, id: u32, side: Side)
    requires Finalize(s, now, who, at).Success?
    ensures TallyOf(Finalize(s, now, who, at).value, id, side) == TallyOf(s, id, side)
  {
  }

  lemma AssignTally(s: Court, who: Address, at: u32, jurors: seq<Address>, id: u32, side: Side)
    requires AssignJurors(s, who, at, jurors).Success?
    ensures TallyOf(AssignJurors(s, who, at, jurors).value, id, side) == TallyOf(s, id, side)
  {
  }

  lemma OtherTally(s: Court, tx: Tx, id: u32, side: Side)
    requires Numbered(s) && !tx.call.DoVote?
    ensures TallyOf(Step(s, tx), id, side) == TallyOf(s, id, side)
  {
    if Attempt(s, tx).Success? {
      match tx.call
      case DoFinalize(at) => FinalizeTally(s, tx.now, tx.who, at, id, side);
      case DoAssign(at, jurors) => AssignTally(s, tx.who, at, jurors, id, side);
      case DoFile(_, _, _, _) =>
      case DoSubmit(_, _, _) =>
      case DoAppeal(_, _) => assert Step(s, tx).disputes == s.disputes;
    }
  }

  lemma StepGap(s: Court, tx: Tx, id: u32, side: Side)
    requires Seated(s)
    ensures Gap(Step(s, tx), id, side) == Gap(s, id, side) + |Forgotten(s, tx, id, side)|
  {
    if Attempt(s, tx).Success? && tx.call.DoAssign? {
      OtherTally(s, tx, id, side);
      SeatVoters(s.assignments, tx.call.id, tx.call.jurors, id, side);
    } else if Attempt(s, tx).Success? && tx.call.DoVote? {
      VoteTally(s, tx.now, tx.who, tx.call.id, tx.call.outcome, id, side);
      VoterAdded(s.assignments, (tx.call.id, tx.who), tx.call.outcome, id, side);
    } else if Attempt(s, tx).Success? {
      OtherTally(s, tx, id, side);
      assert Step(s, tx).assignments == s.assignments;
    }
  }

  /** Juror accounting, exactly: a tally is the number of jurors on record for that side,
      plus the gap the run started with, plus the voters whose record was erased. */
  lemma {:induction false} JurorAccounting(s: Court, txs: seq<Tx>, id: u32, side: Side)
    requires Seated(s)
    ensures Seated(Run(s, txs))
    ensures TallyOf(Run(s, txs), id, side)
         == |Voters(Run(s, txs).assignments, id, side)| + Gap(s, id, side) + AllForgotten(s, txs, id, side)
    decreases txs
  {
    if txs != [] {
      StepSeated(s, txs[0]);
      StepGap(s, txs[0], id, side);
      JurorAccounting(Step(s, txs[0]), txs[1..], id, side);
    }
  }

  lemma OtherCallsSeatNobody(s: Court, tx: Tx, id: u32)
    requires forall k <- s.assignments :: k.0 != id
    requires !(tx.call.DoAssign? && tx.call.id == id && Attempt(s, tx).Success?)
    ensures forall k <- Step(s, tx).assignments :: k.0 != id
  {
    if tx.call.DoAssign? && Attempt(s, tx).Success? {
      SeatAt(s.assignments, tx.call.id, tx.call.jurors);
    }
  }

  /** With at most one assignment of jurors nothing is forgotten. */
  lemma {:induction false} OneAssignmentForgetsNothing(s: Court, txs: seq<Tx>, id: u32, side: Side)
    requires || Assignments(s, txs, id) == 0
             || (Assignments(s, txs, id) == 1 && forall k <- s.assignments :: k.0 != id)
    ensures AllForgotten(s, txs, id, side) == 0
    decreases txs
  {
    if txs != [] {
      if txs[0].call.DoAssign? && txs[0].call.id == id && Attempt(s, txs[0]).Success? {
        assert Voters(s.assignments, id, side) == {};
      } else if Assignments(s, txs, id) == 1 {
        OtherCallsSeatNobody(s, txs[0], id);
      }
      OneAssignmentForgetsNothing(Step(s, txs[0]), txs[1..], id, side);
    }
  }

  lemma VotersBySide(assignments: map<(u32, Address), Assignment>, id: u32)
    requires forall k <- assignments :: assignments[k].hasVoted ==> assignments[k].vote.Some?
    ensures |AllVoters(assignments, id)|
         == |Voters(assignments, id, InFavour)| + |Voters(assignments, id, Opposed)| + |Voters(assignments, id, Neither)|
  {
    var f, o, n := Voters(assignments, id, InFavour), Voters(assignments, id, Opposed), Voters(assignments, id, Neither);
    assert AllVoters(assignments, id) == f + o + n;
    assert |f + o| == |f| + |o| && |f + o + n| == |f + o| + |n|;
  }

  /** Of a dispute whose jurors are assigned at most once, the number of votes cast is
      the number of jurors with a vote on record. */
  lemma VotesCastCountsJurors(s: Court, txs: seq<Tx>, id: u32)
    requires Seated(s) && (forall k <- s.assignments :: k.0 != id) && Assignments(s, txs, id) <= 1
    requires AllBalanced(s)
    requires forall side :: TallyOf(s, id, side) == 0
    ensures id in Run(s, txs).disputes ==>
              Run(s, txs).disputes[id].votesCast == |AllVoters(Run(s, txs).assignments, id)|
  {
    var t := Run(s, txs);
    forall side ensures TallyOf(t, id, side) == |Voters(t.assignments, id, side)| {
      JurorAccounting(s, txs, id, side);
      OneAssignmentForgetsNothing(s, txs, id, side);
      assert Voters(s.assignments, id, side) == {};
    }
    JurorAccounting(s, txs, id, Neither);
    VotesAddUp(s, txs);
    VotersBySide(t.assignments, id);
    assert id in t.disputes ==> TallyOf(t, id, Neither) == Tally(t.disputes[id], Neither);
    assert id in t.disputes ==> TallyOf(t, id, InFavour) == Tally(t.disputes[id], InFavour);
    assert id in t.disputes ==> TallyOf(t, id, Opposed) == Tally(t.disputes[id], Opposed);
  }
}
