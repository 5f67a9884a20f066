/** The data lake contract: commits under optimistic concurrency, snapshots, schemas. */
module DataLake {
  import opened Common

  /** A 32-byte digest; only equality matters. */
  type Hash(==, !new)

  datatype Error =
    | NotInitialized | AlreadyInitialized | Unauthorized | ConcurrencyConflict
    | SchemaVersionMismatch | EmptySchema | Overflow

  datatype Format = Iceberg | DeltaLake

  datatype Action = AppendFiles | OverwriteFiles | CompactFiles | SchemaUpdate

  datatype Field = Field(id: u32, name: Symbol, fieldType: Symbol, nullable: bool)

  datatype Schema = Schema(version: u32, fields: seq<Field>, validFrom: u64, active: bool)

  datatype Commit = Commit(
    id: Hash, sequence: u64, timestamp: u64, previousId: Hash, format: Format, action: Action,
    records: u64, dataFiles: u32, schemaVersion: u32, metadataUri: Bytes)

  datatype Snapshot = Snapshot(
    id: u64, commitId: Hash, timestamp: u64, manifestRoot: Hash, totalRecords: u64, schemaVersion: u32)

  datatype Proof = Proof(snapshotId: u64, target: u64, commitId: Hash, manifest: Hash, verified: bool)

  datatype Lake = Lake(
    admin: Option<Address>, latestSequence: u64, latestSnapshot: u64, activeSchema: u32,
    commitBySeq: map<u64, Commit>, commitById: map<Hash, Commit>,
    snapshotById: map<u64, Snapshot>, snapshotByTime: map<u64, Snapshot>, schemas: map<u32, Schema>)

  const EMPTY: Lake := Lake(None, 0, 0, 1, map[], map[], map[], map[], map[])

  function Initialize(s: Lake, now: u64, admin: Address, fields: seq<Field>): Result<Lake, Error> {
    if s.admin.Some? then Failure(AlreadyInitialized)
    else if fields == [] then Failure(EmptySchema)
    else Success(s.(admin := Some(admin), latestSequence := 0, latestSnapshot := 0, activeSchema := 1,
                    schemas := s.schemas[1 := Schema(1, fields, now, true)]))
  }

  function SnapshotOf(id: u64, now: u64, c: Commit): Snapshot {
    Snapshot(id, c.id, now, c.previousId, c.records, c.schemaVersion)
  }

  function CommitTransaction(s: Lake, now: u64, caller: Address, c: Commit): Result<Lake, Error> {
    if s.admin.None? then Failure(NotInitialized)
    else if s.admin.value != caller then Failure(Unauthorized)
    else if s.latestSequence == U64_MAX then Failure(Overflow)
    else if c.sequence != s.latestSequence + 1 then Failure(ConcurrencyConflict)
    else if c.schemaVersion != s.activeSchema then Failure(SchemaVersionMismatch)
    else if s.latestSnapshot == U64_MAX then Failure(Overflow)
    else
      var seqNo, snapId := s.latestSequence + 1, s.latestSnapshot + 1;
      var snapshot := SnapshotOf(snapId, now, c);
      Success(s.(latestSequence := seqNo, latestSnapshot := snapId,
                 commitBySeq := s.commitBySeq[seqNo := c], commitById := s.commitById[c.id := c],
                 snapshotById := s.snapshotById[snapId := snapshot],
                 snapshotByTime := s.snapshotByTime[now := snapshot]))
  }

  function EvolveSchema(s: Lake, now: u64, caller: Address, fields: seq<Field>, expected: u32): Result<Lake, Error> {
    if s.admin.None? then Failure(NotInitialized)
    else if s.admin.value != caller then Failure(Unauthorized)
    else if s.activeSchema != expected then Failure(SchemaVersionMismatch)
    else if fields == [] then Failure(EmptySchema)
    else if s.activeSchema == U32_MAX then Failure(Overflow)
    else
      var version := s.activeSchema + 1;
      Success(s.(activeSchema := version, schemas := s.schemas[version := Schema(version, fields, now, true)]))
  }

  /** The last of the first `n` snapshots taken at or before `target`. */
  function AsOf(s: Lake, target: u64, n: u64): Option<Snapshot> {
    if n == 0 then None
    else if n in s.snapshotById && s.snapshotById[n].timestamp <= target then Some(s.snapshotById[n])
    else AsOf(s, target, n - 1)
  }

  predicate Verifies(s: Lake, p: Proof) {
    && p.snapshotId in s.snapshotById
    && s.snapshotById[p.snapshotId].commitId == p.commitId
    && s.snapshotById[p.snapshotId].timestamp <= p.target
  }

  class Contract {
    var admin: Option<Address>
    var format: Format
    var latestCommit: Option<Commit>
    var latestSequence: u64
    var latestSnapshot: u64
    var activeSchema: u32
    var commitBySeq: map<u64, Commit>
    var commitById: map<Hash, Commit>
    var snapshotById: map<u64, Snapshot>
    var snapshotByTime: map<u64, Snapshot>
    var schemas: map<u32, Schema>

    ghost function State(): Lake
      reads this
    {
      Lake(admin, latestSequence, latestSnapshot, activeSchema, commitBySeq, commitById,
           snapshotById, snapshotByTime, schemas)
    }

    constructor ()
      ensures State() == EMPTY && latestCommit == None
    {
      admin, format, latestCommit := None, Iceberg, None;
      latestSequence, latestSnapshot, activeSchema := 0, 0, 1;
      commitBySeq, commitById, snapshotById, snapshotByTime, schemas := map[], map[], map[], map[], map[];
    }

    method InitializeLake(now: u64, admin: Address, format: Format, fields: seq<Field>) returns (error: Option<Error>)
      modifies this
      ensures Commits(Initialize(old(State()), now, admin, fields), old(State()), State(), error)
      ensures this.format == if error == None then format else old(this.format)
      ensures latestCommit == old(latestCommit)
    {
      if this.admin.Some? {
        return Some(AlreadyInitialized);
      }
      if fields == [] {
        return Some(EmptySchema);
      }
      this.admin := Some(admin);
      this.format := format;
      latestSequence := 0;
      latestSnapshot := 0;
      activeSchema := 1;
      schemas := schemas[1 := Schema(1, fields, now, true)];
      error := None;
    }

    method Submit(now: u64, caller: Address, commit: Commit) returns (sequence: Result<u64, Error>)
      modifies this
      ensures Commits(CommitTransaction(old(State()), now, caller, commit), old(State()), State(),
                      if sequence.Success? then None else Some(sequence.error))
      ensures sequence.Success? ==> sequence.value == commit.sequence && latestCommit == Some(commit)
      ensures sequence.Failure? ==> latestCommit == old(latestCommit)
      ensures format == old(format)
    {
      if admin.None? {
        return Failure(NotInitialized);
      }
      if caller != admin.value {
        return Failure(Unauthorized);
      }
      if latestSequence == U64_MAX {
        return Failure(Overflow);
      }
      if commit.sequence != latestSequence + 1 {
        return Failure(ConcurrencyConflict);
      }
      if commit.schemaVersion != activeSchema {
        return Failure(SchemaVersionMismatch);
      }
      if latestSnapshot == U64_MAX {
        return Failure(Overflow);
      }
      var newSeq := latestSequence + 1;
      commitBySeq := commitBySeq[newSeq := commit];
      commitById := commitById[commit.id := commit];
      latestCommit := Some(commit);
      latestSequence := newSeq;
      var newSnap := latestSnapshot + 1;
      var snapshot := Snapshot(newSnap, commit.id, now, commit.previousId, commit.records, commit.schemaVersion);
      snapshotById := snapshotById[newSnap := snapshot];
      snapshotByTime := snapshotByTime[now := snapshot];
      latestSnapshot := newSnap;
      sequence := Success(newSeq);
    }

    method Evolve(now: u64, caller: Address, fields: seq<Field>, expected: u32) returns (version: Result<u32, Error>)
      modifies `activeSchema, `schemas
      ensures Commits(EvolveSchema(old(State()), now, caller, fields, expected), old(State()), State(),
                      if version.Success? then None else Some(version.error))
      ensures version.Success? ==> version.value == activeSchema
    {
      if admin.None? {
        return Failure(NotInitialized);
      }
      if caller != admin.value {
        return Failure(Unauthorized);
      }
      if activeSchema != expected {
        return Failure(SchemaVersionMismatch);
      }
      if fields == [] {
        return Failure(EmptySchema);
      }
      if activeSchema == U32_MAX {
        return Failure(Overflow);
      }
      var next := activeSchema + 1;
      schemas := schemas[next := Schema(next, fields, now, true)];
      activeSchema := next;
      version := Success(next);
    }

    method GetSnapshotAsOf(target: u64) returns (closest: Option<Snapshot>)
      ensures closest == AsOf(State(), target, latestSnapshot)
    {
      closest := None;
      for id := 1 to latestSnapshot + 1
        invariant closest == AsOf(State(), target, id - 1)
      {
        if id in snapshotById {
          var snapshot := snapshotById[id];
          if snapshot.timestamp <= target {
            closest := Some(snapshot);
          }
        }
      }
    }

    method VerifyTimeTravelProof(proof: Proof) returns (ok: bool)
      ensures ok <==> Verifies(State(), proof)
    {
      if proof.snapshotId in snapshotById {
        var snapshot := snapshotById[proof.snapshotId];
        ok := snapshot.commitId == proof.commitId && snapshot.timestamp <= proof.target;
      } else {
        ok := false;
      }
    }
  }
}

/** What every run of the data lake guarantees about its past. */
module DataLakeRuns {
  import opened Common
  import opened DataLake

  datatype Call =
    | Init(admin: Address, fields: seq<Field>)
    | Submit(caller: Address, commit: Commit)
    | Evolve(caller: Address, fields: seq<Field>, expected: u32)

  datatype Tx = Tx(now: u64, call: Call)

  function Now(tx: Tx): nat { tx.now }

  function Attempt(s: Lake, tx: Tx): Result<Lake, Error> {
    match tx.call
    case Init(admin, fields) => Initialize(s, tx.now, admin, fields)
    case Submit(caller, commit) => CommitTransaction(s, tx.now, caller, commit)
    case Evolve(caller, fields, expected) => EvolveSchema(s, tx.now, caller, fields, expected)
  }

  function Step(s: Lake, tx: Tx): Lake {
    match Attempt(s, tx) case Success(t) => t case Failure(_) => s
  }

  function Run(s: Lake, txs: seq<Tx>): Lake
    decreases txs
  {
    if txs == [] then s else Run(Step(s, txs[0]), txs[1..])
  }

  /** Nothing is stored before initialisation. */
  ghost predicate Fresh(s: Lake) {
    s.admin.None? ==> s == EMPTY
  }

  /** Commits and snapshots are numbered 1..n together. */
  ghost predicate Numbered(s: Lake) {
    && s.latestSequence == s.latestSnapshot
    && (forall k: u64 :: k in s.commitBySeq <==> 1 <= k <= s.latestSequence)
    && (forall k: u64 :: k in s.snapshotById <==> 1 <= k <= s.latestSnapshot)
  }

  /** Snapshot k was cut from commit k, which carries sequence number k. */
  ghost predicate Matched(s: Lake) {
    && Numbered(s)
    && (forall k <- s.snapshotById ::
          && s.commitBySeq[k].sequence == k
          && s.snapshotById[k] == SnapshotOf(k, s.snapshotById[k].timestamp, s.commitBySeq[k]))
  }

  /** Snapshots are in time order and none is later than the clock. */
  ghost predicate InOrder(s: Lake, clock: nat) {
    && (forall k <- s.snapshotById :: s.snapshotById[k].timestamp <= clock)
    && (forall j, k | j in s.snapshotById && k in s.snapshotById && j < k ::
          s.snapshotById[j].timestamp <= s.snapshotById[k].timestamp)
  }

  /** `x` is the last snapshot taken at time `t`. */
  ghost predicate LastOf(s: Lake, t: u64, x: Snapshot) {
    && x.timestamp == t && x.id in s.snapshotById && s.snapshotById[x.id] == x
    && (forall k | k in s.snapshotById && s.snapshotById[k].timestamp == t :: k <= x.id)
  }

  /** The time index holds the last snapshot of every instant that has one. */
  ghost predicate TimeIndexed(s: Lake) {
    && (forall k <- s.snapshotById :: s.snapshotById[k].timestamp in s.snapshotByTime)
    && (forall t <- s.snapshotByTime :: LastOf(s, t, s.snapshotByTime[t]))
  }

  /** Schema versions are 1..active and snapshots never step back to an older one. */
  ghost predicate Schemed(s: Lake) {
    && (s.admin.Some? ==> forall v: u32 :: v in s.schemas <==> 1 <= v <= s.activeSchema)
    && (forall k <- s.snapshotById :: s.snapshotById[k].schemaVersion <= s.activeSchema)
    && (forall j, k | j in s.snapshotById && k in s.snapshotById && j < k ::
          s.snapshotById[j].schemaVersion <= s.snapshotById[k].schemaVersion)
  }

  ghost predicate Consistent(s: Lake, clock: nat) {
    Fresh(s) && Matched(s) && InOrder(s, clock) && TimeIndexed(s) && Schemed(s)
  }

  ghost predicate SameHistory(s: Lake, t: Lake) {
    && t.latestSequence == s.latestSequence && t.latestSnapshot == s.latestSnapshot
    && t.commitBySeq == s.commitBySeq && t.commitById == s.commitById
    && t.snapshotById == s.snapshotById && t.snapshotByTime == s.snapshotByTime
  }

  ghost predicate Appended(s: Lake, t: Lake, now: u64, c: Commit) {
    && t.latestSequence == s.latestSequence + 1 == c.sequence && t.latestSnapshot == s.latestSnapshot + 1
    && t.commitBySeq == s.commitBySeq[t.latestSequence := c] && t.commitById == s.commitById[c.id := c]
    && t.snapshotById == s.snapshotById[t.latestSnapshot := SnapshotOf(t.latestSnapshot, now, c)]
    && t.snapshotByTime == s.snapshotByTime[now := SnapshotOf(t.latestSnapshot, now, c)]
  }

  ghost predicate AcceptsCommit(s: Lake, tx: Tx) {
    tx.call.Submit? && Attempt(s, tx).Success?
  }

  /** A transaction either appends one commit with its snapshot or leaves the history alone. */
  lemma StepShape(s: Lake, tx: Tx)
    requires Fresh(s)
    ensures Fresh(Step(s, tx))
    ensures if AcceptsCommit(s, tx) then Appended(s, Step(s, tx), tx.now, tx.call.commit) else SameHistory(s, Step(s, tx))
  {
  }

  lemma MatchedAppend(s: Lake, t: Lake, now: u64, c: Commit)
    requires Matched(s) && Appended(s, t, now, c)
    ensures Matched(t)
  {
    assert Numbered(t);
  }

  lemma StepMatched(s: Lake, tx: Tx)
    requires Fresh(s) && Matched(s)
    ensures Fresh(Step(s, tx)) && Matched(Step(s, tx))
  {
    StepShape(s, tx);
    if AcceptsCommit(s, tx) {
      MatchedAppend(s, Step(s, tx), tx.now, tx.call.commit);
    }
  }

  lemma OrderAppend(s: Lake, t: Lake, now: u64, c: Commit, clock: nat)
    requires Numbered(s) && InOrder(s, clock) && Appended(s, t, now, c) && clock <= now
    ensures InOrder(t, now)
  {
  }

  lemma TimeAppend(s: Lake, t: Lake, now: u64, c: Commit)
    requires Numbered(s) && TimeIndexed(s) && Appended(s, t, now, c)
    ensures TimeIndexed(t)
  {
    var last := t.snapshotById[t.latestSnapshot];
    forall k <- t.snapshotById ensures t.snapshotById[k].timestamp in t.snapshotByTime {
      assert k in s.snapshotById || k == t.latestSnapshot;
    }
    forall i <- t.snapshotByTime ensures LastOf(t, i, t.snapshotByTime[i]) {
      if i == now {
        assert t.snapshotByTime[i] == last;
      } else {
        assert LastOf(s, i, s.snapshotByTime[i]);
      }
    }
  }

  lemma StepTimes(s: Lake, tx: Tx, clock: nat)
    requires Fresh(s) && Matched(s) && InOrder(s, clock) && TimeIndexed(s) && clock <= tx.now
    ensures InOrder(Step(s, tx), tx.now) && TimeIndexed(Step(s, tx))
  {
    StepShape(s, tx);
    if AcceptsCommit(s, tx) {
      OrderAppend(s, Step(s, tx), tx.now, tx.call.commit, clock);
      TimeAppend(s, Step(s, tx), tx.now, tx.call.commit);
    }
  }

  lemma StepSchemed(s: Lake, tx: Tx)
    requires Fresh(s) && Numbered(s) && Schemed(s)
    ensures Schemed(Step(s, tx))
  {
    StepShape(s, tx);
  }

  lemma StepConsistent(s: Lake, tx: Tx, clock: nat)
    requires Consistent(s, clock) && clock <= tx.now
    ensures Consistent(Step(s, tx), tx.now)
  {
    StepMatched(s, tx);
    StepTimes(s, tx, clock);
    StepSchemed(s, tx);
  }

  lemma {:induction false} RunConsistent(s: Lake, txs: seq<Tx>, clock: nat)
    requires Consistent(s, clock) && Clocked(txs, Now, clock)
    ensures Consistent(Run(s, txs), EndTime(txs, Now, clock))
    decreases txs
  {
    if txs != [] {
      ClockedTail(txs, Now, clock);
      StepConsistent(s, txs[0], clock);
      RunConsistent(Step(s, txs[0]), txs[1..], txs[0].now);
    }
  }

  /** Every reachable state is consistent. */
  lemma ReachableConsistent(txs: seq<Tx>)
    requires Clocked(txs, Now, 0)
    ensures Consistent(Run(EMPTY, txs), EndTime(txs, Now, 0))
  {
    RunConsistent(EMPTY, txs, 0);
  }

  // Time travel

  /** Snapshot `id` is at or before `target` and every later one is after it. */
  ghost predicate IsLatestAt(s: Lake, target: u64, id: u64, n: u64) {
    && 1 <= id <= n && id in s.snapshotById && s.snapshotById[id].timestamp <= target
    && forall k: u64 | id < k <= n && k in s.snapshotById :: s.snapshotById[k].timestamp > target
  }

  lemma {:induction false} ScanFindsLatest(s: Lake, target: u64, n: u64) returns (id: u64)
    ensures AsOf(s, target, n).None? ==>
              forall k: u64 | 1 <= k <= n && k in s.snapshotById :: s.snapshotById[k].timestamp > target
    ensures AsOf(s, target, n).Some? ==> IsLatestAt(s, target, id, n) && AsOf(s, target, n).value == s.snapshotById[id]
    decreases n
  {
    id := n;
    if n > 0 && !(n in s.snapshotById && s.snapshotById[n].timestamp <= target) {
      id := ScanFindsLatest(s, target, n - 1);
    }
  }

  /** The scan returns the snapshot of the largest id taken at or before the target, and
      none exactly when there is none; the ids at or before the target are those up to it. */
  lemma AsOfIsLatest(s: Lake, clock: nat, target: u64)
    requires Matched(s) && InOrder(s, clock)
    ensures var r := AsOf(s, target, s.latestSnapshot);
            && (r.None? <==> forall k <- s.snapshotById :: s.snapshotById[k].timestamp > target)
            && (r.Some? ==> && r.value.id in s.snapshotById && s.snapshotById[r.value.id] == r.value
                            && forall k <- s.snapshotById :: s.snapshotById[k].timestamp <= target <==> k <= r.value.id)
  {
    var id := ScanFindsLatest(s, target, s.latestSnapshot);
  }

  /** The scan and the timestamp index agree wherever the index has an entry. */
  lemma ScanAgreesWithIndex(s: Lake, clock: nat, target: u64)
    requires Numbered(s) && InOrder(s, clock) && TimeIndexed(s) && target in s.snapshotByTime
    ensures AsOf(s, target, s.latestSnapshot) == Some(s.snapshotByTime[target])
  {
    var id := ScanFindsLatest(s, target, s.latestSnapshot);
    var x := s.snapshotByTime[target];
    assert LastOf(s, target, x);
    assert x.id <= id;
    assert s.snapshotById[x.id].timestamp <= s.snapshotById[id].timestamp;
  }

  lemma {:induction false} AsOfFrame(s: Lake, t: Lake, target: u64, n: u64)
    requires forall k: u64 | 1 <= k <= n :: k in s.snapshotById <==> k in t.snapshotById
    requires forall k: u64 | 1 <= k <= n && k in s.snapshotById :: s.snapshotById[k] == t.snapshotById[k]
    ensures AsOf(s, target, n) == AsOf(t, target, n)
    decreases n
  {
    if n > 0 {
      AsOfFrame(s, t, target, n - 1);
    }
  }

  function Answer(s: Lake, target: u64): Option<Snapshot> {
    AsOf(s, target, s.latestSnapshot)
  }

  /** One transaction changes an as-of answer exactly when it commits at or before the
      target, and then the new snapshot is the answer. */
  lemma AnswerStep(s: Lake, tx: Tx, target: u64)
    requires Fresh(s) && Numbered(s)
    ensures Answer(Step(s, tx), target)
         == if AcceptsCommit(s, tx) && tx.now <= target
            then Some(SnapshotOf(s.latestSnapshot + 1, tx.now, tx.call.commit)) else Answer(s, target)
  {
    StepShape(s, tx);
    AsOfFrame(s, Step(s, tx), target, s.latestSnapshot);
  }

  /** The past is stable: nothing that happens strictly after `target` changes the answer for it. */
  lemma {:induction false} PastIsStable(s: Lake, txs: seq<Tx>, target: u64)
    requires Fresh(s) && Matched(s) && forall tx <- txs :: target < tx.now
    ensures Answer(Run(s, txs), target) == Answer(s, target)
    decreases txs
  {
    if txs != [] {
      assert txs[0] in txs && forall tx <- txs[1..] :: tx in txs;
      AnswerStep(s, txs[0], target);
      StepMatched(s, txs[0]);
      PastIsStable(Step(s, txs[0]), txs[1..], target);
    }
  }

  lemma StepGrows(s: Lake, tx: Tx)
    requires Fresh(s) && Numbered(s)
    ensures forall k <- s.snapshotById :: k in Step(s, tx).snapshotById && Step(s, tx).snapshotById[k] == s.snapshotById[k]
    ensures forall k <- s.commitBySeq :: k in Step(s, tx).commitBySeq && Step(s, tx).commitBySeq[k] == s.commitBySeq[k]
  {
    StepShape(s, tx);
  }

  /** A proof that verifies keeps verifying: snapshots are never overwritten. */
  lemma {:induction false} ProofsStayValid(s: Lake, txs: seq<Tx>, proof: Proof)
    requires Fresh(s) && Matched(s) && Verifies(s, proof)
    ensures Verifies(Run(s, txs), proof)
    decreases txs
  {
    if txs != [] {
      StepMatched(s, txs[0]);
      StepGrows(s, txs[0]);
      ProofsStayValid(Step(s, txs[0]), txs[1..], proof);
    }
  }

  /** A proof verifies exactly when it names the commit of a snapshot no later than the
      as-of answer for its target; in particular the answer's own proof verifies. */
  lemma VerifiesIff(s: Lake, clock: nat, proof: Proof)
    requires Matched(s) && InOrder(s, clock)
    ensures var r := Answer(s, proof.target);
            Verifies(s, proof) <==>
              && r.Some? && 1 <= proof.snapshotId <= r.value.id
              && proof.snapshotId in s.commitBySeq && s.commitBySeq[proof.snapshotId].id == proof.commitId
  {
    AsOfIsLatest(s, clock, proof.target);
    if proof.snapshotId in s.snapshotById {
      assert s.snapshotById[proof.snapshotId].commitId == s.commitBySeq[proof.snapshotId].id;
    }
  }

  // Optimistic concurrency

  /** The commits a run gets accepted, in order. */
  ghost function AcceptedCommits(s: Lake, txs: seq<Tx>): seq<Commit>
    decreases txs
  {
    if txs == [] then []
    else (if AcceptsCommit(s, txs[0]) then [txs[0].call.commit] else [])
         + AcceptedCommits(Step(s, txs[0]), txs[1..])
  }

  lemma {:induction false} CommitsStay(s: Lake, txs: seq<Tx>)
    requires Fresh(s) && Matched(s)
    ensures forall k <- s.commitBySeq :: k in Run(s, txs).commitBySeq && Run(s, txs).commitBySeq[k] == s.commitBySeq[k]
    decreases txs
  {
    if txs != [] {
      StepMatched(s, txs[0]);
      StepGrows(s, txs[0]);
      CommitsStay(Step(s, txs[0]), txs[1..]);
    }
  }

  /** Optimistic concurrency: the i-th accepted commit carries the i-th next sequence
      number and stays stored under it, so of several commits prepared against the same
      version at most one is ever accepted. */
  lemma {:induction false} CommitsAreConsecutive(s: Lake, txs: seq<Tx>, i: nat)
    requires Fresh(s) && Matched(s) && i < |AcceptedCommits(s, txs)|
    ensures var c := AcceptedCommits(s, txs)[i];
            && c.sequence == s.latestSequence + 1 + i
            && c.sequence in Run(s, txs).commitBySeq && Run(s, txs).commitBySeq[c.sequence] == c
    decreases txs
  {
    var t := Step(s, txs[0]);
    StepMatched(s, txs[0]);
    StepShape(s, txs[0]);
    if AcceptsCommit(s, txs[0]) {
      if i == 0 {
        CommitsStay(t, txs[1..]);
      } else {
        assert AcceptedCommits(s, txs)[i] == AcceptedCommits(t, txs[1..])[i - 1];
        CommitsAreConsecutive(t, txs[1..], i - 1);
      }
    } else {
      assert AcceptedCommits(s, txs) == AcceptedCommits(t, txs[1..]);
      CommitsAreConsecutive(t, txs[1..], i);
    }
  }

  /** The commit found under an id is the last one accepted with that id. */
  ghost predicate IdIndexed(s: Lake) {
    && (forall k <- s.commitBySeq :: s.commitBySeq[k].id in s.commitById)
    && (forall h <- s.commitById ::
          var c := s.commitById[h];
          && c.id == h && c.sequence in s.commitBySeq && s.commitBySeq[c.sequence] == c
          && forall k | k in s.commitBySeq && s.commitBySeq[k].id == h :: k <= c.sequence)
  }

  lemma IdAppend(s: Lake, t: Lake, now: u64, c: Commit)
    requires Numbered(s) && IdIndexed(s) && Appended(s, t, now, c)
    ensures IdIndexed(t)
  {
  }

  lemma {:induction false} RunIdIndexed(s: Lake, txs: seq<Tx>)
    requires Fresh(s) && Matched(s) && IdIndexed(s)
    ensures Matched(Run(s, txs)) && IdIndexed(Run(s, txs))
    decreases txs
  {
    if txs != [] {
      StepMatched(s, txs[0]);
      StepShape(s, txs[0]);
      if AcceptsCommit(s, txs[0]) {
        IdAppend(s, Step(s, txs[0]), txs[0].now, txs[0].call.commit);
      }
      RunIdIndexed(Step(s, txs[0]), txs[1..]);
    }
  }

  /** The two commit indexes agree on every commit if and only if no id was reused. */
  lemma IndexesAgreeIff(s: Lake)
    requires Matched(s) && IdIndexed(s)
    ensures (forall k <- s.commitBySeq :: s.commitById[s.commitBySeq[k].id] == s.commitBySeq[k])
        <==> (forall j, k | j in s.commitBySeq && k in s.commitBySeq && j != k :: s.commitBySeq[j].id != s.commitBySeq[k].id)
  {
    forall k <- s.commitBySeq ensures s.commitBySeq[k].sequence == k {
      assert k in s.snapshotById;
    }
  }

  /** Two accepted commits with one id, after which the index by id has lost the first. */
  lemma IdReused(admin: Address, c: Commit, field: Field)
    requires c.sequence == 1 && c.schemaVersion == 1
    ensures var txs := [Tx(1, Init(admin, [field])), Tx(2, Submit(admin, c)), Tx(3, Submit(admin, c.(sequence := 2)))];
            var t := Run(EMPTY, txs);
            && t.commitBySeq == map[1 := c, 2 := c.(sequence := 2)] && t.commitById == map[c.id := c.(sequence := 2)]
  {
    var t1, t2, t3 := Tx(1, Init(admin, [field])), Tx(2, Submit(admin, c)), Tx(3, Submit(admin, c.(sequence := 2)));
    var s1 := EMPTY.(admin := Some(admin), schemas := map[1 := Schema(1, [field], 1, true)]);
    assert Step(EMPTY, t1) == s1;
    var s2 := Step(s1, t2);
    assert s2.admin == Some(admin) && s2.activeSchema == 1 && s2.latestSequence == 1 && s2.latestSnapshot == 1
           && s2.commitBySeq == map[1 := c] && s2.commitById == map[c.id := c];
    assert [t1, t2, t3][1..] == [t2, t3] && [t2, t3][1..] == [t3] && [t3][1..] == [];
    assert Run(s1, [t2, t3]) == Run(s2, [t3]) == Step(s2, t3);
  }
}
