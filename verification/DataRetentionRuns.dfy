/** The sweep against the report, and how batches of it compose. */
module RetentionSweeps {
  import opened Common
  import opened EventLog
  import opened DataRetention

  /** What the sweep of [lo, end) does to the survey of [lo, hi): erasable becomes erased. */
  lemma {:induction false} SurveyAfter(s: State, t: State, now: u64, lo: nat, hi: nat, end: nat)
    requires |t.log| == |s.log| && hi <= end <= |s.log|
    requires forall k: u32 | lo <= k < hi :: Classify(t, now, k) == ClassAfter(s, now, lo, end, k)
    ensures var before := Survey(s, now, lo, hi);
            Survey(t, now, lo, hi)
            == before.(erasable := 0, alreadyErased := before.alreadyErased + before.erasable)
    decreases hi
  {
    if lo < hi {
      SurveyAfter(s, t, now, lo, hi - 1, end);
    }
  }

  lemma {:induction false} SweepIdle(h: Hashing, s: State, now: u64, who: Address, i: nat, end: nat, n: nat)
    requires end <= |s.log| && forall k: u32 | i <= k < end :: Classify(s, now, k) != Erasable
    ensures Sweep(h, s, now, who, i, end, n) == Success(Swept(s, n))
    decreases end - i
  {
    if i < end {
      SweepIdle(h, s, now, who, i + 1, end, n);
    }
  }

  /** The sweep agrees with the report: it returns exactly the erasable count reported
      beforehand, moves exactly those events to the erased bucket, leaves every other
      bucket alone, and finds nothing to do a second time. */
  lemma SweepAgreesWithReport(h: Hashing, s: State, now: u64, who: Address, start: u32, batch: u32)
    requires RunSweep(h, s, now, who, start, batch).Success?
    ensures var end := BatchEnd(|s.log|, start, batch);
            var r, before := RunSweep(h, s, now, who, start, batch).value, Survey(s, now, start, end);
            && |r.state.log| == |s.log|
            && r.erased == before.erasable
            && Survey(r.state, now, start, end)
               == before.(erasable := 0, alreadyErased := before.alreadyErased + before.erasable)
            && RunSweep(h, r.state, now, who, start, batch) == Success(Swept(r.state, 0))
  {
    var end := BatchEnd(|s.log|, start, batch);
    var t := RunSweep(h, s, now, who, start, batch).value.state;
    SweepReturnsCount(h, s, now, who, start, end, 0);
    SurveyCounts(s, now, start, end, Erasable);
    SweepKeepsLength(h, s, now, who, start, end, 0);
    forall k: u32 | start <= k < end ensures Classify(t, now, k) == ClassAfter(s, now, start, end, k) {
      SweepClass(h, s, now, who, start, end, 0, k);
    }
    SurveyAfter(s, t, now, start, end, end);
    SweepIdle(h, t, now, who, start, end, 0);
  }

  lemma {:induction false} SweepKeepsLength(h: Hashing, s: State, now: u64, who: Address, i: nat, end: nat, n: nat)
    requires end <= |s.log| && Sweep(h, s, now, who, i, end, n).Success?
    ensures var t := Sweep(h, s, now, who, i, end, n).value.state; |t.log| == |s.log| && t.admins == s.admins
    decreases end - i
  {
    if i < end {
      if Classify(s, now, i) != Erasable {
        SweepKeepsLength(h, s, now, who, i + 1, end, n);
      } else {
        SweepKeepsLength(h, Redact(h, s, now, who, i, "retention_expired"), now, who, i + 1, end, n + 1);
      }
    }
  }

  /** The outcome of doing `r` and then, from its state, what `next` gives. */
  function Then(r: Result<Swept, Error>, next: Result<Swept, Error>): Result<Swept, Error> {
    match r
    case Failure(e) => Failure(e)
    case Success(a) =>
      match next
      case Failure(e) => Failure(e)
      case Success(b) => Success(Swept(b.state, a.erased + b.erased))
  }

  lemma {:induction false} SweepFrom(h: Hashing, s: State, now: u64, who: Address, i: nat, end: nat, n: nat)
    requires end <= |s.log|
    ensures Sweep(h, s, now, who, i, end, n) == Then(Success(Swept(s, n)), Sweep(h, s, now, who, i, end, 0))
    decreases end - i
  {
    if i < end {
      if Classify(s, now, i) != Erasable {
        SweepFrom(h, s, now, who, i + 1, end, n);
      } else {
        var t := Redact(h, s, now, who, i, "retention_expired");
        SweepFrom(h, t, now, who, i + 1, end, n + 1);
        SweepFrom(h, t, now, who, i + 1, end, 1);
      }
    }
  }

  lemma {:induction false} SweepSplits(h: Hashing, s: State, now: u64, who: Address, i: nat, mid: nat, end: nat, n: nat)
    requires i <= mid <= end <= |s.log|
    ensures var front := Sweep(h, s, now, who, i, mid, n);
            && (front.Success? ==> |front.value.state.log| == |s.log|)
            && Sweep(h, s, now, who, i, end, n)
               == if front.Failure? then front
                  else Sweep(h, front.value.state, now, who, mid, end, front.value.erased)
    decreases mid - i
  {
    if i < mid {
      if Classify(s, now, i) != Erasable {
        SweepSplits(h, s, now, who, i + 1, mid, end, n);
      } else {
        SweepSplits(h, Redact(h, s, now, who, i, "retention_expired"), now, who, i + 1, mid, end, n + 1);
      }
    }
  }

  /** Batches compose: at one timestamp, sweeping [start, start + a) and then the next b
      events gives the state and the summed count of one sweep of a + b events, also when
      the ranges run past the last event; the long sweep fails when either part does. */
  lemma BatchesCompose(h: Hashing, s: State, now: u64, who: Address, start: u32, a: u32, b: u32)
    requires start + a + b <= U32_MAX
    ensures var first := RunSweep(h, s, now, who, start, a);
            RunSweep(h, s, now, who, start, a + b)
            == if first.Failure? then first else Then(first, RunSweep(h, first.value.state, now, who, start + a, b))
  {
    if who in s.admins {
      var total: u32 := |s.log|;
      var mid, end := BatchEnd(total, start, a), BatchEnd(total, start, a + b);
      var first := Sweep(h, s, now, who, start, mid, 0);
      if first.Success? {
        SweepKeepsLength(h, s, now, who, start, mid, 0);
        var t, n := first.value.state, first.value.erased;
        SweepFrom(h, t, now, who, start + a, BatchEnd(total, start + a, b), n);
        if start <= total {
          SweepSplits(h, s, now, who, start, mid, end, 0);
        }
      } else {
        SweepSplits(h, s, now, who, start, mid, end, 0);
      }
    }
  }
}

/** What every run of the retention module keeps. */
module RetentionRuns {
  import opened Common
  import opened EventLog
  import opened DataRetention

  /** Calls that never reach the event log. */
  datatype Rule =
    | SetPolicyTo(category: Symbol, days: u32, basis: Symbol)
    | SetDefaultTo(days: u32)
    | PlaceHoldOn(index: u32, reason: Bytes)
    | ReleaseHoldOn(index: u32)
    | GrantTo(index: u32, reason: Bytes, expiresAt: u64)
    | RevokeFrom(index: u32)
    | RequestFor(index: u32, why: Symbol)

  datatype Call =
    | DoRule(rule: Rule)
    | DoProcess(id: u32, approve: bool, justification: Bytes)
    | DoSweep(start: u32, batch: u32)
    | DoLog(eventType: Symbol, category: Symbol, metadata: Bytes)
    | DoUpdate(index: u32, metadata: Bytes)
    | DoRollback(index: u32, version: u32)

  datatype Tx = Tx(now: u64, who: Address, call: Call)

  function Apply(s: State, now: u64, who: Address, rule: Rule): Result<State, Error> {
    match rule
    case SetPolicyTo(category, days, basis) => SetPolicy(s, now, who, category, days, basis)
    case SetDefaultTo(days) => SetDefault(s, who, days)
    case PlaceHoldOn(i, reason) => PlaceHold(s, now, who, i, reason)
    case ReleaseHoldOn(i) => ReleaseHold(s, now, who, i)
    case GrantTo(i, reason, expiresAt) => Grant(s, now, who, i, reason, expiresAt)
    case RevokeFrom(i) => Revoke(s, who, i)
    case RequestFor(i, why) => RequestErasure(s, now, who, i, why)
  }

  function SweptState(r: Result<Swept, Error>): Result<State, Error> {
    match r case Success(x) => Success(x.state) case Failure(e) => Failure(e)
  }

  function Attempt(h: Hashing, s: State, tx: Tx): Result<State, Error> {
    match tx.call
    case DoRule(rule) => Apply(s, tx.now, tx.who, rule)
    case DoProcess(id, approve, justification) => Process(h, s, tx.now, tx.who, id, approve, justification)
    case DoSweep(start, batch) => SweptState(RunSweep(h, s, tx.now, tx.who, start, batch))
    case DoLog(eventType, category, metadata) => LogEvent(h, s, tx.now, tx.who, eventType, category, metadata)
    case DoUpdate(i, metadata) => UpdateMetadata(h, s, tx.now, tx.who, i, metadata)
    case DoRollback(i, version) => Rollback(h, s, tx.now, tx.who, i, version)
  }

  function Step(h: Hashing, s: State, tx: Tx): State {
    match Attempt(h, s, tx) case Success(t) => t case Failure(_) => s
  }

  function Run(h: Hashing, s: State, txs: seq<Tx>): State
    decreases txs
  {
    if txs == [] then s else Run(h, Step(h, s, txs[0]), txs[1..])
  }

  /** A step that leaves the log, its history and the erasure records alone. */
  ghost predicate Quiet(s: State, t: State) {
    t.log == s.log && t.versions == s.versions && t.erasures == s.erasures && t.admins == s.admins && t.limits == s.limits
  }

  /** What a rule does to the guards of one event, and to one request. */
  lemma RuleEffect(s: State, now: u64, who: Address, rule: Rule, k: u32)
    requires Apply(s, now, who, rule).Success?
    ensures var t := Apply(s, now, who, rule).value;
            && Quiet(s, t)
            && (Held(s, k) && !(rule == ReleaseHoldOn(k) && who in s.admins) ==> Held(t, k))
            && (k in s.exceptions && !(rule == RevokeFrom(k) && who in s.admins)
                && !(rule.GrantTo? && rule.index == k && rule.reason != [] && who in s.admins) ==>
                  k in t.exceptions && t.exceptions[k] == s.exceptions[k])
            && (RequestsNumbered(s) ==> RequestsNumbered(t)
                                        && (k in s.requests ==> k in t.requests && t.requests[k] == s.requests[k]))
  {
  }

  /** Request ids are below the counter, so filing never overwrites a request. */
  ghost predicate RequestsNumbered(s: State) {
    forall id <- s.requests :: id < s.requestCount
  }

  /** A direct edit of event `k` that the contract accepts: an administrator's, with new
      metadata within the limits and the schema, or with a version that exists. */
  predicate Edits(s: State, tx: Tx, k: u32) {
    && tx.who in s.admins && k < |s.log|
    && match tx.call
       case DoUpdate(i, metadata) =>
         var eventType := s.log[k].event.eventType;
         i == k && |metadata| <= MaxLength(s.limits, eventType) && Fits(s.limits, eventType, metadata)
       case DoRollback(i, version) => i == k && version < |History(s, k)|
       case _ => false
  }

  /** The only steps that reach the log: a sweep, an approval, a new event, a direct edit. */
  lemma StepShape(h: Hashing, s: State, tx: Tx)
    ensures var t := Step(h, s, tx);
            || Quiet(s, t)
            || (&& tx.call.DoSweep? && tx.who in s.admins
                && Sweep(h, s, tx.now, tx.who, tx.call.start, BatchEnd(|s.log|, tx.call.start, tx.call.batch), 0).Success?
                && t == Sweep(h, s, tx.now, tx.who, tx.call.start, BatchEnd(|s.log|, tx.call.start, tx.call.batch), 0).value.state)
            || (&& tx.call.DoProcess? && tx.call.approve && tx.call.id in s.requests
                && var r := s.requests[tx.call.id];
                   && r.status == Pending && r.index < |s.log| && MayErase(s, tx.now, r.index)
                   && t == Redact(h, s, tx.now, tx.who, r.index, r.reason).(requests := t.requests))
            || (&& tx.call.DoLog? && |s.log| < U32_MAX
                && t == s.(log := Append(h, s.log, Event(tx.now, tx.call.eventType, tx.call.category, tx.who, tx.call.metadata, None))))
            || (&& tx.call.DoUpdate? && tx.call.index < |s.log| && Edits(s, tx, tx.call.index)
                && t == Amend(h, s, tx.now, tx.who, tx.call.index, tx.call.metadata))
            || (&& tx.call.DoRollback? && tx.call.index < |s.log| && Edits(s, tx, tx.call.index)
                && tx.call.version < |History(s, tx.call.index)|
                && t == RollbackTo(h, s, tx.now, tx.who, tx.call.index, History(s, tx.call.index)[tx.call.version].event))
  {
    if tx.call.DoRule? && Attempt(h, s, tx).Success? {
      RuleEffect(s, tx.now, tx.who, tx.call.rule, 0);
    }
  }

  /** The guards that approvals and sweeps share. */
  predicate MayErase(s: State, now: u64, i: u32)
    requires i < |s.log|
  {
    s.log[i].event.category != OPERATIONAL && !Held(s, i) && !Excepted(s, now, i)
  }

  /** Event `i` keeps its metadata and its erasure record. */
  ghost predicate Untouched(s: State, t: State, i: u32)
    requires i < |s.log|
  {
    && i < |t.log| && t.log[i].event.metadata == s.log[i].event.metadata
    && t.log[i].event.category == s.log[i].event.category && t.log[i].event.timestamp == s.log[i].event.timestamp
    && t.log[i].event.submitter == s.log[i].event.submitter && t.log[i].event.eventType == s.log[i].event.eventType
    && (i in t.erasures <==> i in s.erasures) && (i in s.erasures ==> t.erasures[i] == s.erasures[i])
  }

  lemma RedactUntouched(h: Hashing, s: State, now: u64, who: Address, i: u32, reason: Symbol, k: u32)
    requires i < |s.log| && k < |s.log| && k != i
    ensures Untouched(s, Redact(h, s, now, who, i, reason), k)
  {
    RedactFrame(h, s, now, who, i, reason, k);
  }

  lemma {:induction false} SweepSpares(h: Hashing, s: State, now: u64, who: Address, i: nat, end: nat, n: nat, k: u32)
    requires end <= |s.log| && k < |s.log| && Sweep(h, s, now, who, i, end, n).Success?
    requires Classify(s, now, k) != Erasable
    ensures Untouched(s, Sweep(h, s, now, who, i, end, n).value.state, k)
    decreases end - i
  {
    if i < end {
      if Classify(s, now, i) != Erasable {
        SweepSpares(h, s, now, who, i + 1, end, n, k);
      } else {
        RedactClass(h, s, now, who, i, "retention_expired", k);
        RedactUntouched(h, s, now, who, i, "retention_expired", k);
        SweepSpares(h, Redact(h, s, now, who, i, "retention_expired"), now, who, i + 1, end, n + 1, k);
      }
    }
  }

  lemma EditSpares(h: Hashing, s: State, tx: Tx, k: u32)
    requires k < |s.log| && (tx.call.DoUpdate? || tx.call.DoRollback?) && !Edits(s, tx, k)
    ensures Untouched(s, Step(h, s, tx), k)
  {
    if Attempt(h, s, tx).Success? {
      var i := tx.call.index;
      assert i != k;
      match tx.call
      case DoUpdate(_, metadata) => UpdateFrame(h, s.log, i, metadata, k);
      case DoRollback(_, version) => RestoreFrame(h, s.log, i, History(s, i)[version].event, k);
    }
  }

  /** One step touches nothing that is operational, held or excepted, but for an
      accepted direct edit. */
  lemma StepSpares(h: Hashing, s: State, tx: Tx, k: u32)
    requires k < |s.log| && !MayErase(s, tx.now, k) && !Edits(s, tx, k)
    ensures Untouched(s, Step(h, s, tx), k)
  {
    StepShape(h, s, tx);
    if !Quiet(s, Step(h, s, tx)) {
      if tx.call.DoSweep? {
        SweepSpares(h, s, tx.now, tx.who, tx.call.start, BatchEnd(|s.log|, tx.call.start, tx.call.batch), 0, k);
      } else if tx.call.DoProcess? {
        var r := s.requests[tx.call.id];
        RedactFrame(h, s, tx.now, tx.who, r.index, r.reason, k);
      } else if !tx.call.DoLog? {
        EditSpares(h, s, tx, k);
      }
    }
  }

  /** A run in which no direct edit of event `k` is accepted. */
  predicate Unedited(h: Hashing, s: State, txs: seq<Tx>, k: u32)
    decreases txs
  {
    txs == [] || (!Edits(s, txs[0], k) && Unedited(h, Step(h, s, txs[0]), txs[1..], k))
  }

  /** The event an edit asks for in place of event `k`. */
  function Intended(s: State, tx: Tx, k: u32): Event
    requires k < |s.log| && (tx.call.DoUpdate? || tx.call.DoRollback?)
  {
    match tx.call
    case DoUpdate(_, metadata) => s.log[k].event.(metadata := metadata)
    case DoRollback(_, version) => if version < |History(s, k)| then History(s, k)[version].event else s.log[k].event
  }

  /** An accepted edit puts its metadata in place, unless it leaves the id as it is. Neither
      the category, nor a hold, nor an exception, nor an erasure stops it. */
  lemma EditStep(h: Hashing, s: State, tx: Tx, k: u32)
    requires k < |s.log| && Edits(s, tx, k)
    ensures k < |Step(h, s, tx).log|
    ensures var event := Intended(s, tx, k);
            Step(h, s, tx).log[k].event.metadata
            == if IdOf(h, event, k) == s.log[k].id then s.log[k].event.metadata else event.metadata
  {
    match tx.call
    case DoUpdate(_, metadata) => UpdateFrame(h, s.log, k, metadata, k);
    case DoRollback(_, version) => RestoreFrame(h, s.log, k, History(s, k)[version].event, k);
  }

  /** Which calls to the two entry points are accepted: limits and schema bind updates
      only, and none of them asks for the event's category, hold, exception or erasure. */
  lemma EditAccepted(h: Hashing, s: State, tx: Tx)
    requires tx.call.DoUpdate? || tx.call.DoRollback?
    ensures Attempt(h, s, tx).Success? <==> Edits(s, tx, tx.call.index)
  {
  }

  /** In every run operational events keep their metadata for as long as no direct edit of
      them is accepted; requests, approvals and sweeps never touch them. */
  lemma {:induction false} OperationalIsImmutable(h: Hashing, s: State, txs: seq<Tx>, k: u32)
    requires k < |s.log| && s.log[k].event.category == OPERATIONAL && Unedited(h, s, txs, k)
    ensures Untouched(s, Run(h, s, txs), k)
    decreases txs
  {
    if txs != [] {
      StepSpares(h, s, txs[0], k);
      OperationalIsImmutable(h, Step(h, s, txs[0]), txs[1..], k);
    }
  }

  lemma {:induction false} SweepKeepsRest(h: Hashing, s: State, now: u64, who: Address, i: nat, end: nat, n: nat)
    requires end <= |s.log| && Sweep(h, s, now, who, i, end, n).Success?
    ensures var t := Sweep(h, s, now, who, i, end, n).value.state;
            t == s.(log := t.log, versions := t.versions, erasures := t.erasures)
    decreases end - i
  {
    if i < end {
      if Classify(s, now, i) != Erasable {
        SweepKeepsRest(h, s, now, who, i + 1, end, n);
      } else {
        SweepKeepsRest(h, Redact(h, s, now, who, i, "retention_expired"), now, who, i + 1, end, n + 1);
      }
    }
  }

  /** An administrator revokes or replaces the exception of event `k`. */
  predicate EndsException(s: State, tx: Tx, k: u32) {
    && tx.call.DoRule? && tx.who in s.admins
    && (tx.call.rule == RevokeFrom(k) || (tx.call.rule.GrantTo? && tx.call.rule.index == k && tx.call.rule.reason != []))
  }

  predicate EndsHold(s: State, tx: Tx, k: u32) {
    tx.call == DoRule(ReleaseHoldOn(k)) && tx.who in s.admins
  }

  lemma ProcessKeeps(h: Hashing, s: State, now: u64, who: Address, id: u32, approve: bool, justification: Bytes)
    requires Process(h, s, now, who, id, approve, justification).Success?
    ensures var t := Process(h, s, now, who, id, approve, justification).value;
            && t == s.(log := t.log, versions := t.versions, erasures := t.erasures, requests := t.requests)
            && id in s.requests && s.requests[id].status == Pending
            && t.requests == s.requests[id := Decided(s.requests[id], now, who, if approve then Fulfilled else Denied, justification)]
  {
  }

  /** Calls other than rules leave policies, guards and requests alone, but for the request
      that an administrator decides. */
  lemma OtherCallsKeep(h: Hashing, s: State, tx: Tx)
    requires !tx.call.DoRule?
    ensures var t := Step(h, s, tx);
            && t == s.(log := t.log, versions := t.versions, erasures := t.erasures, requests := t.requests)
            && if tx.call.DoProcess? && Attempt(h, s, tx).Success?
               then && tx.call.id in s.requests && s.requests[tx.call.id].status == Pending
                    && t.requests == s.requests[tx.call.id := Decided(s.requests[tx.call.id], tx.now, tx.who,
                                                  if tx.call.approve then Fulfilled else Denied, tx.call.justification)]
               else t.requests == s.requests
  {
    if Attempt(h, s, tx).Success? {
      match tx.call {
        case DoProcess(id, approve, justification) => ProcessKeeps(h, s, tx.now, tx.who, id, approve, justification);
        case DoSweep(start, batch) => SweepKeepsRest(h, s, tx.now, tx.who, start, BatchEnd(|s.log|, start, batch), 0);
        case DoLog(_, _, _) =>
        case DoUpdate(_, _) =>
        case DoRollback(_, _) =>
      }
    }
  }

  lemma StepKeepsGuards(h: Hashing, s: State, tx: Tx, k: u32)
    ensures Step(h, s, tx).admins == s.admins
    ensures Held(s, k) && !EndsHold(s, tx, k) ==> Held(Step(h, s, tx), k)
    ensures k in s.exceptions && !EndsException(s, tx, k) ==>
              k in Step(h, s, tx).exceptions && Step(h, s, tx).exceptions[k] == s.exceptions[k]
  {
    if !tx.call.DoRule? {
      OtherCallsKeep(h, s, tx);
    } else if Attempt(h, s, tx).Success? {
      RuleEffect(s, tx.now, tx.who, tx.call.rule, k);
    }
  }

  /** A legal hold protects: until an administrator releases it or edits the event directly,
      nothing changes the event's metadata or erasure record. */
  lemma {:induction false} HoldProtects(h: Hashing, s: State, txs: seq<Tx>, k: u32)
    requires k < |s.log| && Held(s, k) && Unedited(h, s, txs, k)
    requires forall tx <- txs :: !EndsHold(s, tx, k)
    ensures Untouched(s, Run(h, s, txs), k) && Held(Run(h, s, txs), k)
    decreases txs
  {
    if txs != [] {
      assert txs[0] in txs && forall tx <- txs[1..] :: tx in txs;
      StepSpares(h, s, txs[0], k);
      StepKeepsGuards(h, s, txs[0], k);
      HoldProtects(h, Step(h, s, txs[0]), txs[1..], k);
    }
  }

  /** A compliance exception protects until it expires or is revoked or replaced, but for
      direct edits. */
  lemma {:induction false} ExceptionProtects(h: Hashing, s: State, txs: seq<Tx>, k: u32)
    requires k < |s.log| && k in s.exceptions && Unedited(h, s, txs, k)
    requires forall tx <- txs :: && !EndsException(s, tx, k)
                                 && (s.exceptions[k].expiresAt == 0 || tx.now < s.exceptions[k].expiresAt)
    ensures Untouched(s, Run(h, s, txs), k)
    decreases txs
  {
    if txs != [] {
      assert txs[0] in txs && forall tx <- txs[1..] :: tx in txs;
      StepSpares(h, s, txs[0], k);
      StepKeepsGuards(h, s, txs[0], k);
      ExceptionProtects(h, Step(h, s, txs[0]), txs[1..], k);
    }
  }

  // Tamper evidence

  ghost predicate Chained(h: Hashing, s: State) {
    ChainValid(h, s.log) && IdsMatch(h, s.log)
  }

  lemma RedactChained(h: Hashing, s: State, now: u64, who: Address, i: u32, reason: Symbol)
    requires i < |s.log| && Chained(h, s)
    ensures Chained(h, Redact(h, s, now, who, i, reason))
  {
    UpdateKeepsChain(h, s.log, i, []);
    UpdateKeepsIds(h, s.log, i, []);
  }

  lemma {:induction false} SweepChained(h: Hashing, s: State, now: u64, who: Address, i: nat, end: nat, n: nat)
    requires end <= |s.log| && Sweep(h, s, now, who, i, end, n).Success? && Chained(h, s)
    ensures Chained(h, Sweep(h, s, now, who, i, end, n).value.state)
    decreases end - i
  {
    if i < end {
      if Classify(s, now, i) != Erasable {
        SweepChained(h, s, now, who, i + 1, end, n);
      } else {
        RedactChained(h, s, now, who, i, "retention_expired");
        SweepChained(h, Redact(h, s, now, who, i, "retention_expired"), now, who, i + 1, end, n + 1);
      }
    }
  }

  lemma EditChained(h: Hashing, s: State, tx: Tx)
    requires Chained(h, s) && (tx.call.DoUpdate? || tx.call.DoRollback?)
    ensures Chained(h, Step(h, s, tx))
  {
    if Attempt(h, s, tx).Success? {
      var i := tx.call.index;
      match tx.call
      case DoUpdate(_, metadata) =>
        UpdateKeepsChain(h, s.log, i, metadata);
        UpdateKeepsIds(h, s.log, i, metadata);
      case DoRollback(_, version) =>
        RestoreKeepsChain(h, s.log, i, History(s, i)[version].event);
        RestoreKeepsIds(h, s.log, i, History(s, i)[version].event);
    }
  }

  lemma StepChained(h: Hashing, s: State, tx: Tx)
    requires Chained(h, s)
    ensures Chained(h, Step(h, s, tx))
  {
    StepShape(h, s, tx);
    if !Quiet(s, Step(h, s, tx)) {
      if tx.call.DoSweep? {
        SweepChained(h, s, tx.now, tx.who, tx.call.start, BatchEnd(|s.log|, tx.call.start, tx.call.batch), 0);
      } else if tx.call.DoProcess? {
        var r := s.requests[tx.call.id];
        RedactChained(h, s, tx.now, tx.who, r.index, r.reason);
      } else if tx.call.DoLog? {
        var e := Event(tx.now, tx.call.eventType, tx.call.category, tx.who, tx.call.metadata, None);
        AppendKeepsChain(h, s.log, e);
        AppendKeepsIds(h, s.log, e);
      } else {
        EditChained(h, s, tx);
      }
    }
  }

  /** The chain stays intact: however events are logged, erased, swept, updated and rolled
      back, the whole log still verifies, and every id is still the digest of what is stored under it. */
  lemma {:induction false} ChainStaysIntact(h: Hashing, s: State, txs: seq<Tx>)
    requires Chained(h, s)
    ensures Chained(h, Run(h, s, txs))
    decreases txs
  {
    if txs != [] {
      StepChained(h, s, txs[0]);
      ChainStaysIntact(h, Step(h, s, txs[0]), txs[1..]);
    }
  }

  // Evidence of erasure

  /** `content` is what every event holds or, once erased, held before: its metadata as
      logged, or as last edited before the erasure. The record of an erased event holds
      the digest of its content, unless the event is among the `wrong` ones. */
  ghost predicate Evidence(h: Hashing, s: State, content: seq<Bytes>, wrong: set<u32>) {
    && |content| == |s.log| && (forall k <- wrong :: k in s.erasures)
    && (forall k <- s.erasures :: k < |s.log| && s.erasures[k].erased)
    && forall k: u32 | k < |s.log| :: Witnessed(h, s, content, wrong, k)
  }

  ghost predicate Witnessed(h: Hashing, s: State, content: seq<Bytes>, wrong: set<u32>, k: u32)
    requires |content| == |s.log| && k < |s.log|
  {
    if k in s.erasures then k in wrong <==> s.erasures[k].originalHash != h.sha(content[k])
    else s.log[k].event.metadata == content[k]
  }

  /** Every record holds the digest of the event's content. */
  ghost predicate RecordsTrue(h: Hashing, s: State, content: seq<Bytes>) {
    && |content| == |s.log|
    && forall k <- s.erasures :: k < |s.log| && s.erasures[k].originalHash == h.sha(content[k])
  }

  /** The contents after one step: a new event adds its own, an edit before the erasure counts. */
  function ContentBy(h: Hashing, s: State, tx: Tx, content: seq<Bytes>): seq<Bytes> {
    if Attempt(h, s, tx).Failure? then content
    else
      match tx.call
      case DoLog(_, _, metadata) => content + [metadata]
      case DoUpdate(i, _) =>
        if i < |content| && i !in s.erasures then content[i := Step(h, s, tx).log[i].event.metadata] else content
      case DoRollback(i, _) =>
        if i < |content| && i !in s.erasures then content[i := Step(h, s, tx).log[i].event.metadata] else content
      case _ => content
  }

  function Content(h: Hashing, s: State, txs: seq<Tx>, content: seq<Bytes>): seq<Bytes>
    decreases txs
  {
    if txs == [] then content else Content(h, Step(h, s, txs[0]), txs[1..], ContentBy(h, s, txs[0], content))
  }

  /** The code lets an approval through for an event that is erased already. */
  predicate Reapproves(h: Hashing, s: State, tx: Tx) {
    && tx.call.DoProcess? && tx.call.approve && Attempt(h, s, tx).Success?
    && s.requests[tx.call.id].index in s.erasures
  }

  /** Such an approval overwrites the record with the digest of what the event holds by then. */
  function WrongBy(h: Hashing, s: State, tx: Tx, content: seq<Bytes>, wrong: set<u32>): set<u32> {
    if !Reapproves(h, s, tx) then wrong
    else
      var i := s.requests[tx.call.id].index;
      if i < |content| && h.sha(s.log[i].event.metadata) == h.sha(content[i]) then wrong - {i} else wrong + {i}
  }

  /** The events whose last repeated approval saw something with another digest. */
  function Wrong(h: Hashing, s: State, txs: seq<Tx>, content: seq<Bytes>, wrong: set<u32>): set<u32>
    decreases txs
  {
    if txs == [] then wrong
    else Wrong(h, Step(h, s, txs[0]), txs[1..], ContentBy(h, s, txs[0], content), WrongBy(h, s, txs[0], content, wrong))
  }

  lemma RedactEvidence(h: Hashing, s: State, now: u64, who: Address, i: u32, reason: Symbol, content: seq<Bytes>, wrong: set<u32>)
    requires i < |s.log| && Evidence(h, s, content, wrong)
    ensures var digest := h.sha(s.log[i].event.metadata);
            Evidence(h, Redact(h, s, now, who, i, reason), content,
                     if digest == h.sha(content[i]) then wrong - {i} else wrong + {i})
  {
    var t := Redact(h, s, now, who, i, reason);
    var next := if h.sha(s.log[i].event.metadata) == h.sha(content[i]) then wrong - {i} else wrong + {i};
    RedactFrame(h, s, now, who, i, reason, i);
    forall k: u32 | k < |s.log| ensures Witnessed(h, t, content, next, k) {
      RedactFrame(h, s, now, who, i, reason, k);
      assert Witnessed(h, s, content, wrong, k);
    }
  }

  lemma {:induction false} SweepEvidence(
      h: Hashing, s: State, now: u64, who: Address, i: nat, end: nat, n: nat, content: seq<Bytes>, wrong: set<u32>)
    requires end <= |s.log| && Sweep(h, s, now, who, i, end, n).Success? && Evidence(h, s, content, wrong)
    ensures Evidence(h, Sweep(h, s, now, who, i, end, n).value.state, content, wrong)
    decreases end - i
  {
    if i < end {
      if Classify(s, now, i) != Erasable {
        SweepEvidence(h, s, now, who, i + 1, end, n, content, wrong);
      } else {
        assert Witnessed(h, s, content, wrong, i);
        RedactEvidence(h, s, now, who, i, "retention_expired", content, wrong);
        assert wrong - {i} == wrong;
        SweepEvidence(h, Redact(h, s, now, who, i, "retention_expired"), now, who, i + 1, end, n + 1, content, wrong);
      }
    }
  }

  lemma QuietEvidence(h: Hashing, s: State, t: State, content: seq<Bytes>, wrong: set<u32>)
    requires Evidence(h, s, content, wrong) && t.log == s.log && t.erasures == s.erasures
    ensures Evidence(h, t, content, wrong)
  {
    forall k: u32 | k < |s.log| ensures Witnessed(h, t, content, wrong, k) {
      assert Witnessed(h, s, content, wrong, k);
    }
  }

  /** An edit of event `i`: its new content counts if it is not erased yet. */
  lemma EditedEvidence(h: Hashing, s: State, t: State, i: u32, content: seq<Bytes>, wrong: set<u32>)
    requires Evidence(h, s, content, wrong) && i < |s.log| == |t.log| && t.erasures == s.erasures
    requires forall k: u32 | k < |s.log| && k != i :: t.log[k].event.metadata == s.log[k].event.metadata
    ensures Evidence(h, t, if i in s.erasures then content else content[i := t.log[i].event.metadata], wrong)
  {
    var after := if i in s.erasures then content else content[i := t.log[i].event.metadata];
    forall k: u32 | k < |s.log| ensures Witnessed(h, t, after, wrong, k) {
      assert Witnessed(h, s, content, wrong, k);
    }
  }

  lemma EditEvidence(h: Hashing, s: State, tx: Tx, content: seq<Bytes>, wrong: set<u32>)
    requires Evidence(h, s, content, wrong) && (tx.call.DoUpdate? || tx.call.DoRollback?) && Attempt(h, s, tx).Success?
    ensures Evidence(h, Step(h, s, tx), ContentBy(h, s, tx, content), wrong)
  {
    var t, i := Step(h, s, tx), tx.call.index;
    StepShape(h, s, tx);
    OtherCallsKeep(h, s, tx);
    forall k: u32 | k < |s.log| && k != i ensures k < |t.log| && t.log[k].event.metadata == s.log[k].event.metadata {
      EditSpares(h, s, tx, k);
    }
    EditedEvidence(h, s, t, i, content, wrong);
  }

  lemma LogEvidence(h: Hashing, s: State, t: State, e: Event, content: seq<Bytes>, wrong: set<u32>)
    requires Evidence(h, s, content, wrong) && |s.log| < U32_MAX && t == s.(log := Append(h, s.log, e))
    ensures Evidence(h, t, content + [e.metadata], wrong)
  {
    forall k: u32 | k < |t.log| ensures Witnessed(h, t, content + [e.metadata], wrong, k) {
      if k < |s.log| {
        assert Witnessed(h, s, content, wrong, k);
      }
    }
  }

  lemma StepEvidence(h: Hashing, s: State, tx: Tx, content: seq<Bytes>, wrong: set<u32>)
    requires Evidence(h, s, content, wrong)
    ensures Evidence(h, Step(h, s, tx), ContentBy(h, s, tx, content), WrongBy(h, s, tx, content, wrong))
  {
    var t := Step(h, s, tx);
    if Attempt(h, s, tx).Success? {
      match tx.call {
        case DoRule(rule) =>
          RuleEffect(s, tx.now, tx.who, rule, 0);
          QuietEvidence(h, s, t, content, wrong);
        case DoSweep(start, batch) =>
          SweepEvidence(h, s, tx.now, tx.who, start, BatchEnd(|s.log|, start, batch), 0, content, wrong);
        case DoProcess(id, approve, _) =>
          ProcessEvidence(h, s, tx, content, wrong);
        case DoLog(eventType, category, metadata) =>
          LogEvidence(h, s, t, Event(tx.now, eventType, category, tx.who, metadata, None), content, wrong);
        case _ => EditEvidence(h, s, tx, content, wrong);
      }
    }
  }

  lemma ProcessEvidence(h: Hashing, s: State, tx: Tx, content: seq<Bytes>, wrong: set<u32>)
    requires Evidence(h, s, content, wrong) && tx.call.DoProcess? && Attempt(h, s, tx).Success?
    ensures Evidence(h, Step(h, s, tx), content, WrongBy(h, s, tx, content, wrong))
  {
    var t := Step(h, s, tx);
    if tx.call.approve {
      var r := s.requests[tx.call.id];
      var mid := Redact(h, s, tx.now, tx.who, r.index, r.reason);
      assert Witnessed(h, s, content, wrong, r.index);
      RedactEvidence(h, s, tx.now, tx.who, r.index, r.reason, content, wrong);
      assert r.index !in s.erasures ==> wrong - {r.index} == wrong;
      QuietEvidence(h, mid, t, content, WrongBy(h, s, tx, content, wrong));
    } else {
      QuietEvidence(h, s, t, content, wrong);
    }
  }

  lemma {:induction false} RunEvidence(h: Hashing, s: State, txs: seq<Tx>, content: seq<Bytes>, wrong: set<u32>)
    requires Evidence(h, s, content, wrong)
    ensures Evidence(h, Run(h, s, txs), Content(h, s, txs, content), Wrong(h, s, txs, content, wrong))
    decreases txs
  {
    if txs != [] {
      StepEvidence(h, s, txs[0], content, wrong);
      RunEvidence(h, Step(h, s, txs[0]), txs[1..], ContentBy(h, s, txs[0], content), WrongBy(h, s, txs[0], content, wrong));
    }
  }

  /** Erasure evidence, exactly: at the end of any run, direct edits included, all records
      hold the digests of what was erased if and only if for no event the last repeated
      approval saw something with another digest. No property of the digest is needed. */
  lemma EvidenceIff(h: Hashing, s: State, txs: seq<Tx>, content: seq<Bytes>)
    requires Evidence(h, s, content, {})
    ensures RecordsTrue(h, Run(h, s, txs), Content(h, s, txs, content)) <==> Wrong(h, s, txs, content, {}) == {}
  {
    var t, after, wrong := Run(h, s, txs), Content(h, s, txs, content), Wrong(h, s, txs, content, {});
    RunEvidence(h, s, txs, content, {});
    forall k <- t.erasures ensures k in wrong <==> t.erasures[k].originalHash != h.sha(after[k]) {
      assert Witnessed(h, t, after, wrong, k);
    }
  }

  predicate NeverReapproves(h: Hashing, s: State, txs: seq<Tx>)
    decreases txs
  {
    txs == [] || (!Reapproves(h, s, txs[0]) && NeverReapproves(h, Step(h, s, txs[0]), txs[1..]))
  }

  lemma {:induction false} NothingWrong(h: Hashing, s: State, txs: seq<Tx>, content: seq<Bytes>, wrong: set<u32>)
    requires NeverReapproves(h, s, txs)
    ensures Wrong(h, s, txs, content, wrong) == wrong
    decreases txs
  {
    if txs != [] {
      NothingWrong(h, Step(h, s, txs[0]), txs[1..], ContentBy(h, s, txs[0], content), wrong);
    }
  }

  /** In every run that approves no request for an erased event, each record holds the
      digest of what was erased. */
  lemma EvidenceIsKept(h: Hashing, s: State, txs: seq<Tx>, content: seq<Bytes>)
    requires Evidence(h, s, content, {}) && NeverReapproves(h, s, txs)
    ensures RecordsTrue(h, Run(h, s, txs), Content(h, s, txs, content))
  {
    NothingWrong(h, s, txs, content, {});
    EvidenceIff(h, s, txs, content);
  }

  /** The content of an event nobody edits is its metadata as first logged. */
  lemma {:induction false} ContentIsAsLogged(h: Hashing, s: State, txs: seq<Tx>, content: seq<Bytes>, k: u32)
    requires k < |content| && Unedited(h, s, txs, k)
    ensures k < |Content(h, s, txs, content)| && Content(h, s, txs, content)[k] == content[k]
    decreases txs
  {
    if txs != [] {
      ContentIsAsLogged(h, Step(h, s, txs[0]), txs[1..], ContentBy(h, s, txs[0], content), k);
    }
  }

  // Permanence

  lemma {:induction false} SweepKeepsErased(h: Hashing, s: State, now: u64, who: Address, i: nat, end: nat, n: nat, k: u32)
    requires end <= |s.log| && Sweep(h, s, now, who, i, end, n).Success? && IsErased(s, k)
    ensures IsErased(Sweep(h, s, now, who, i, end, n).value.state, k)
    decreases end - i
  {
    if i < end {
      if Classify(s, now, i) != Erasable {
        SweepKeepsErased(h, s, now, who, i + 1, end, n, k);
      } else {
        SweepKeepsErased(h, Redact(h, s, now, who, i, "retention_expired"), now, who, i + 1, end, n + 1, k);
      }
    }
  }

  lemma StepKeepsErased(h: Hashing, s: State, tx: Tx, k: u32)
    requires IsErased(s, k)
    ensures IsErased(Step(h, s, tx), k)
  {
    StepShape(h, s, tx);
    if !Quiet(s, Step(h, s, tx)) && tx.call.DoSweep? {
      SweepKeepsErased(h, s, tx.now, tx.who, tx.call.start, BatchEnd(|s.log|, tx.call.start, tx.call.batch), 0, k);
    }
  }

  /** Being marked erased is permanent, in every run, direct edits included. */
  lemma {:induction false} ErasureIsPermanent(h: Hashing, s: State, txs: seq<Tx>, k: u32)
    requires IsErased(s, k)
    ensures IsErased(Run(h, s, txs), k)
    decreases txs
  {
    if txs != [] {
      StepKeepsErased(h, s, txs[0], k);
      ErasureIsPermanent(h, Step(h, s, txs[0]), txs[1..], k);
    }
  }

  /** If event `k` is marked erased, it is blank. */
  ghost predicate BlankAt(s: State, k: u32) {
    IsErased(s, k) ==> k < |s.log| && s.log[k].event.metadata == []
  }

  lemma RedactBlank(h: Hashing, s: State, now: u64, who: Address, i: u32, reason: Symbol, k: u32)
    requires i < |s.log| && BlankAt(s, k) && IdsMatch(h, s.log) && BindsEmpty(h)
    ensures BlankAt(Redact(h, s, now, who, i, reason), k)
  {
    if k < |s.log| {
      RedactFrame(h, s, now, who, i, reason, k);
    }
    UpdateSetsMetadata(h, s.log, i, []);
  }

  lemma {:induction false} SweepBlank(h: Hashing, s: State, now: u64, who: Address, i: nat, end: nat, n: nat, k: u32)
    requires end <= |s.log| && Sweep(h, s, now, who, i, end, n).Success?
    requires BlankAt(s, k) && IdsMatch(h, s.log) && BindsEmpty(h)
    ensures BlankAt(Sweep(h, s, now, who, i, end, n).value.state, k)
    decreases end - i
  {
    if i < end {
      if Classify(s, now, i) != Erasable {
        SweepBlank(h, s, now, who, i + 1, end, n, k);
      } else {
        RedactBlank(h, s, now, who, i, "retention_expired", k);
        UpdateKeepsIds(h, s.log, i, []);
        SweepBlank(h, Redact(h, s, now, who, i, "retention_expired"), now, who, i + 1, end, n + 1, k);
      }
    }
  }

  lemma StepBlank(h: Hashing, s: State, tx: Tx, k: u32)
    requires BlankAt(s, k) && IdsMatch(h, s.log) && BindsEmpty(h) && !Edits(s, tx, k)
    ensures BlankAt(Step(h, s, tx), k)
  {
    StepShape(h, s, tx);
    if !Quiet(s, Step(h, s, tx)) {
      if tx.call.DoSweep? {
        SweepBlank(h, s, tx.now, tx.who, tx.call.start, BatchEnd(|s.log|, tx.call.start, tx.call.batch), 0, k);
      } else if tx.call.DoProcess? {
        var r := s.requests[tx.call.id];
        RedactBlank(h, s, tx.now, tx.who, r.index, r.reason, k);
      } else if !tx.call.DoLog? && IsErased(s, k) {
        EditSpares(h, s, tx, k);
      }
    }
  }

  /** Erased means blank, in every run, for every event that no administrator edits. */
  lemma {:induction false} ErasedIsBlank(h: Hashing, s: State, txs: seq<Tx>, k: u32)
    requires BlankAt(s, k) && Chained(h, s) && BindsEmpty(h) && Unedited(h, s, txs, k)
    ensures BlankAt(Run(h, s, txs), k)
    decreases txs
  {
    if txs != [] {
      StepBlank(h, s, txs[0], k);
      StepChained(h, s, txs[0]);
      ErasedIsBlank(h, Step(h, s, txs[0]), txs[1..], k);
    }
  }

  // Evidence without direct edits

  /** A wrong record of a blank event stays wrong for as long as nobody edits the event. */
  lemma {:induction false} LostStaysLost(h: Hashing, s: State, txs: seq<Tx>, content: seq<Bytes>, wrong: set<u32>, k: u32)
    requires k in wrong && k < |content| && h.sha([]) != h.sha(content[k])
    requires IsErased(s, k) && BlankAt(s, k) && Chained(h, s) && BindsEmpty(h) && Unedited(h, s, txs, k)
    ensures k in Wrong(h, s, txs, content, wrong)
    decreases txs
  {
    if txs != [] {
      var tx := txs[0];
      StepBlank(h, s, tx, k);
      StepKeepsErased(h, s, tx, k);
      StepChained(h, s, tx);
      LostStaysLost(h, Step(h, s, tx), txs[1..], ContentBy(h, s, tx, content), WrongBy(h, s, tx, content, wrong), k);
    }
  }

  /** An approval for an erased event whose content has another digest than nothing. */
  predicate Overwrites(h: Hashing, s: State, tx: Tx, content: seq<Bytes>) {
    && Reapproves(h, s, tx)
    && var i := s.requests[tx.call.id].index; i < |content| && h.sha([]) != h.sha(content[i])
  }

  predicate NeverOverwrites(h: Hashing, s: State, txs: seq<Tx>, content: seq<Bytes>)
    decreases txs
  {
    txs == [] ||
    (!Overwrites(h, s, txs[0], content) && NeverOverwrites(h, Step(h, s, txs[0]), txs[1..], ContentBy(h, s, txs[0], content)))
  }

  lemma OverwriteStep(h: Hashing, s: State, tx: Tx, content: seq<Bytes>)
    requires Evidence(h, s, content, {}) && forall k :: BlankAt(s, k)
    ensures WrongBy(h, s, tx, content, {}) == if Overwrites(h, s, tx, content) then {s.requests[tx.call.id].index} else {}
  {
    if Reapproves(h, s, tx) {
      var i := s.requests[tx.call.id].index;
      assert BlankAt(s, i) && i < |content|;
    }
  }

  lemma AllBlankStep(h: Hashing, s: State, txs: seq<Tx>)
    requires txs != [] && IdsMatch(h, s.log) && BindsEmpty(h)
    requires (forall k :: BlankAt(s, k)) && forall k :: Unedited(h, s, txs, k)
    ensures forall k :: BlankAt(Step(h, s, txs[0]), k)
    ensures forall k :: Unedited(h, Step(h, s, txs[0]), txs[1..], k)
  {
    forall k ensures BlankAt(Step(h, s, txs[0]), k) && Unedited(h, Step(h, s, txs[0]), txs[1..], k) {
      assert Unedited(h, s, txs, k) && BlankAt(s, k);
      StepBlank(h, s, txs[0], k);
    }
  }

  /** Without direct edits the records are true at the end of a run if and only if no
      request was approved for an erased event whose content has another digest than nothing. */
  lemma {:induction false} NeverOverwrittenIff(h: Hashing, s: State, txs: seq<Tx>, content: seq<Bytes>)
    requires Evidence(h, s, content, {}) && Chained(h, s) && BindsEmpty(h)
    requires (forall k :: BlankAt(s, k)) && forall k :: Unedited(h, s, txs, k)
    ensures RecordsTrue(h, Run(h, s, txs), Content(h, s, txs, content)) <==> NeverOverwrites(h, s, txs, content)
    decreases txs
  {
    EvidenceIff(h, s, txs, content);
    if txs != [] {
      var tx, t := txs[0], Step(h, s, txs[0]);
      AllBlankStep(h, s, txs);
      OverwriteStep(h, s, tx, content);
      StepEvidence(h, s, tx, content, {});
      StepChained(h, s, tx);
      var after := ContentBy(h, s, tx, content);
      if Overwrites(h, s, tx, content) {
        var i := s.requests[tx.call.id].index;
        StepKeepsErased(h, s, tx, i);
        LostStaysLost(h, t, txs[1..], after, {i}, i);
      } else {
        EvidenceIff(h, t, txs[1..], after);
        NeverOverwrittenIff(h, t, txs[1..], after);
      }
    }
  }

  // History

  /** What no edit changes about an event. */
  ghost predicate SameIdentity(e: Event, e': Event) {
    e' == e.(metadata := e'.metadata, parent := e'.parent)
  }

  /** The history of event `k` starts with what was logged, and all of its versions are of
      that event; without a history the event still holds what was logged. */
  ghost predicate Recorded(s: State, first: seq<Bytes>, k: u32)
    requires |first| == |s.log| && k < |s.log|
  {
    && History(s, k) != [] && History(s, k)[0].event.metadata == first[k]
    && forall v <- History(s, k) :: SameIdentity(s.log[k].event, v.event)
  }

  ghost predicate AllRecorded(s: State, first: seq<Bytes>) {
    && |first| == |s.log| && (forall k <- s.versions :: k < |s.log|)
    && forall k: u32 | k < |s.log| :: Recorded(s, first, k)
  }

  /** A step that appends a version of event `i` and puts it in place, or does nothing. */
  ghost predicate NewVersion(s: State, t: State, i: u32)
    requires i < |s.log| == |t.log|
  {
    || (t.log == s.log && t.versions == s.versions)
    || (&& (forall k: u32 | k < |s.log| :: SameIdentity(s.log[k].event, t.log[k].event))
        && (forall k: u32 | k < |s.log| && k != i :: t.log[k].event.metadata == s.log[k].event.metadata)
        && exists v :: t.versions == s.versions[i := History(s, i) + [v]] && SameIdentity(s.log[i].event, v.event))
  }

  lemma NewVersionRecorded(s: State, t: State, i: u32, first: seq<Bytes>)
    requires i < |s.log| == |t.log| && AllRecorded(s, first) && NewVersion(s, t, i)
    ensures AllRecorded(t, first)
  {
    forall k: u32 | k < |s.log| ensures Recorded(t, first, k) {
      assert Recorded(s, first, k);
    }
  }

  lemma AmendRecords(h: Hashing, s: State, now: u64, who: Address, i: u32, metadata: Bytes, first: seq<Bytes>)
    requires i < |s.log| && AllRecorded(s, first)
    ensures AllRecorded(Amend(h, s, now, who, i, metadata), first)
  {
    var t, event := Amend(h, s, now, who, i, metadata), s.log[i].event.(metadata := metadata);
    assert Recorded(s, first, i);
    forall k: u32 | k < |s.log|
      ensures SameIdentity(s.log[k].event, t.log[k].event) && (k != i ==> t.log[k].event.metadata == s.log[k].event.metadata)
    {
      UpdateFrame(h, s.log, i, metadata, k);
    }
    if IdOf(h, event, i) != s.log[i].id {
      assert t.versions == s.versions[i := History(s, i) + [Latest(h, s, now, who, i, event)]];
    }
    NewVersionRecorded(s, t, i, first);
  }

  lemma RollbackRecords(h: Hashing, s: State, now: u64, who: Address, i: u32, version: u32, first: seq<Bytes>)
    requires i < |s.log| && version < |History(s, i)| && AllRecorded(s, first)
    ensures AllRecorded(RollbackTo(h, s, now, who, i, History(s, i)[version].event), first)
  {
    var event := History(s, i)[version].event;
    var t := RollbackTo(h, s, now, who, i, event);
    assert Recorded(s, first, i) && History(s, i)[version] in History(s, i);
    forall k: u32 | k < |s.log|
      ensures SameIdentity(s.log[k].event, t.log[k].event) && (k != i ==> t.log[k].event.metadata == s.log[k].event.metadata)
    {
      RestoreFrame(h, s.log, i, event, k);
    }
    if IdOf(h, event, i) != s.log[i].id {
      assert t.versions == s.versions[i := History(s, i) + [Latest(h, s, now, who, i, event)]];
    }
    NewVersionRecorded(s, t, i, first);
  }

  lemma SameRecords(s: State, t: State, first: seq<Bytes>)
    requires AllRecorded(s, first) && t.log == s.log && t.versions == s.versions
    ensures AllRecorded(t, first)
  {
    forall k: u32 | k < |s.log| ensures Recorded(t, first, k) {
      assert Recorded(s, first, k);
    }
  }

  lemma RedactRecords(h: Hashing, s: State, now: u64, who: Address, i: u32, reason: Symbol, first: seq<Bytes>)
    requires i < |s.log| && AllRecorded(s, first)
    ensures AllRecorded(Redact(h, s, now, who, i, reason), first)
  {
    AmendRecords(h, s, now, who, i, [], first);
    SameRecords(Amend(h, s, now, who, i, []), Redact(h, s, now, who, i, reason), first);
  }

  lemma {:induction false} SweepRecords(h: Hashing, s: State, now: u64, who: Address, i: nat, end: nat, n: nat, first: seq<Bytes>)
    requires end <= |s.log| && Sweep(h, s, now, who, i, end, n).Success? && AllRecorded(s, first)
    ensures AllRecorded(Sweep(h, s, now, who, i, end, n).value.state, first)
    decreases end - i
  {
    if i < end {
      if Classify(s, now, i) != Erasable {
        SweepRecords(h, s, now, who, i + 1, end, n, first);
      } else {
        RedactRecords(h, s, now, who, i, "retention_expired", first);
        SweepRecords(h, Redact(h, s, now, who, i, "retention_expired"), now, who, i + 1, end, n + 1, first);
      }
    }
  }

  lemma LogRecords(h: Hashing, s: State, t: State, e: Event, first: seq<Bytes>)
    requires AllRecorded(s, first) && |s.log| < U32_MAX && t == s.(log := Append(h, s.log, e))
    ensures AllRecorded(t, first + [e.metadata])
  {
    forall k: u32 | k < |t.log| ensures Recorded(t, first + [e.metadata], k) {
      if k < |s.log| {
        assert Recorded(s, first, k);
      }
    }
  }

  /** The metadata of every event as logged. */
  function LoggedBy(h: Hashing, s: State, tx: Tx, first: seq<Bytes>): seq<Bytes> {
    if tx.call.DoLog? && Attempt(h, s, tx).Success? then first + [tx.call.metadata] else first
  }

  function Logged(h: Hashing, s: State, txs: seq<Tx>, first: seq<Bytes>): seq<Bytes>
    decreases txs
  {
    if txs == [] then first else Logged(h, Step(h, s, txs[0]), txs[1..], LoggedBy(h, s, txs[0], first))
  }

  lemma StepRecords(h: Hashing, s: State, tx: Tx, first: seq<Bytes>)
    requires AllRecorded(s, first)
    ensures AllRecorded(Step(h, s, tx), LoggedBy(h, s, tx, first))
  {
    var t := Step(h, s, tx);
    StepShape(h, s, tx);
    if Quiet(s, t) {
      SameRecords(s, t, first);
    } else {
      match tx.call {
        case DoSweep(start, batch) => SweepRecords(h, s, tx.now, tx.who, start, BatchEnd(|s.log|, start, batch), 0, first);
        case DoProcess(id, _, _) =>
          var r := s.requests[id];
          RedactRecords(h, s, tx.now, tx.who, r.index, r.reason, first);
          SameRecords(Redact(h, s, tx.now, tx.who, r.index, r.reason), t, first);
        case DoLog(eventType, category, metadata) =>
          LogRecords(h, s, t, Event(tx.now, eventType, category, tx.who, metadata, None), first);
        case DoUpdate(i, metadata) => AmendRecords(h, s, tx.now, tx.who, i, metadata, first);
        case DoRollback(i, version) => RollbackRecords(h, s, tx.now, tx.who, i, version, first);
      }
    }
  }

  /** In every run, erasures and direct edits included, the history of every event starts
      with its metadata as logged, and every version has the event's own submitter, type,
      category and time; so no rollback can change those. */
  lemma {:induction false} HistoryStartsAsLogged(h: Hashing, s: State, txs: seq<Tx>, first: seq<Bytes>)
    requires AllRecorded(s, first)
    ensures AllRecorded(Run(h, s, txs), Logged(h, s, txs, first))
    decreases txs
  {
    if txs != [] {
      StepRecords(h, s, txs[0], first);
      HistoryStartsAsLogged(h, Step(h, s, txs[0]), txs[1..], LoggedBy(h, s, txs[0], first));
    }
  }

  /** So an administrator can undo any erasure: rolling an event back to its first version
      is always accepted and brings its metadata as logged back, unless its id collides
      with the one in place. */
  lemma RollbackRestores(h: Hashing, s: State, first: seq<Bytes>, tx: Tx, k: u32)
    requires AllRecorded(s, first) && IdsMatch(h, s.log) && k < |s.log|
    requires tx.call == DoRollback(k, 0) && tx.who in s.admins
    ensures Attempt(h, s, tx).Success?
    ensures Step(h, s, tx).log[k].event.metadata == first[k] <==> !IdCollision(h, s.log[k].event, k, first[k])
  {
    assert Recorded(s, first, k) && History(s, k)[0] in History(s, k);
    RestoreFrame(h, s.log, k, History(s, k)[0].event, k);
  }

  lemma StepRequest(h: Hashing, s: State, tx: Tx, id: u32)
    requires RequestsNumbered(s) && id in s.requests
    ensures RequestsNumbered(Step(h, s, tx)) && id in Step(h, s, tx).requests
    ensures s.requests[id].status != Pending ==> Step(h, s, tx).requests[id] == s.requests[id]
    ensures s.requests[id].status == Pending && Step(h, s, tx).requests[id] != s.requests[id] ==>
              Step(h, s, tx).requests[id].status != Pending
  {
    if !tx.call.DoRule? {
      OtherCallsKeep(h, s, tx);
    } else if Attempt(h, s, tx).Success? {
      RuleEffect(s, tx.now, tx.who, tx.call.rule, id);
    }
  }

  /** A request leaves `Pending` at most once: a decision is final in every run. */
  lemma {:induction false} DecisionsAreFinal(h: Hashing, s: State, txs: seq<Tx>, id: u32)
    requires RequestsNumbered(s) && id in s.requests && s.requests[id].status != Pending
    ensures id in Run(h, s, txs).requests && Run(h, s, txs).requests[id] == s.requests[id]
    decreases txs
  {
    if txs != [] {
      StepRequest(h, s, txs[0], id);
      DecisionsAreFinal(h, Step(h, s, txs[0]), txs[1..], id);
    }
  }

  // A run in which the evidence is lost

  lemma OneStep(h: Hashing, s: State, tx: Tx, rest: seq<Tx>, content: seq<Bytes>, wrong: set<u32>)
    ensures Run(h, s, [tx] + rest) == Run(h, Step(h, s, tx), rest)
    ensures Wrong(h, s, [tx] + rest, content, wrong)
         == Wrong(h, Step(h, s, tx), rest, ContentBy(h, s, tx, content), WrongBy(h, s, tx, content, wrong))
  {
    assert ([tx] + rest)[0] == tx && ([tx] + rest)[1..] == rest;
  }

  function Opened(admin: Address): State {
    State([], map[], Limits(map[], map[], 1_000), {admin}, map[], 0, map[], map[], map[], 0, map[])
  }

  /** One business event with two requests for its erasure. */
  lemma TwoRequests(h: Hashing, admin: Address, m: Bytes, rest: seq<Tx>) returns (t: State, txs: seq<Tx>)
    ensures Wrong(h, Opened(admin), txs, [], {}) == Wrong(h, t, rest, [m], {})
    ensures t == Opened(admin).(
                   log := Append(h, [], Event(1, "type", "business", admin, m, None)), requestCount := 2,
                   requests := map[0 := Request(admin, 0, "why", 2, Pending, None, 0, []),
                                   1 := Request(admin, 0, "why", 3, Pending, None, 0, [])])
  {
    var s := Opened(admin);
    var t1 := Tx(1, admin, DoLog("type", "business", m));
    var t2, t3 := Tx(2, admin, DoRule(RequestFor(0, "why"))), Tx(3, admin, DoRule(RequestFor(0, "why")));
    txs := [t1] + ([t2] + ([t3] + rest));
    OneStep(h, s, t1, [t2] + ([t3] + rest), [], {});
    var s1 := s.(log := Append(h, [], Event(1, "type", "business", admin, m, None)));
    assert Step(h, s, t1) == s1 && ContentBy(h, s, t1, []) == [m];
    OneStep(h, s1, t2, [t3] + rest, [m], {});
    var s2 := s1.(requestCount := 1, requests := map[0 := Request(admin, 0, "why", 2, Pending, None, 0, [])]);
    assert Step(h, s1, t2) == s2;
    OneStep(h, s2, t3, rest, [m], {});
    t := Step(h, s2, t3);
  }

  /** Approving both requests makes the record wrong, for any digests that tell the
      metadata from nothing. */
  lemma ApprovedTwice(h: Hashing, admin: Address, m: Bytes) returns (txs: seq<Tx>)
    requires h.sha(m) != h.sha([]) && BindsEmpty(h)
    ensures Wrong(h, Opened(admin), txs, [], {}) == {0}
  {
    var t4, t5 := Tx(4, admin, DoProcess(0, true, [])), Tx(5, admin, DoProcess(1, true, []));
    var s;
    s, txs := TwoRequests(h, admin, m, [t4] + ([t5] + []));
    OneStep(h, s, t4, [t5] + [], [m], {});
    UpdateSetsMetadata(h, s.log, 0, []);
    UpdateFrame(h, s.log, 0, [], 0);
    var s4 := Step(h, s, t4);
    assert s4.log[0].event.metadata == [] && s4.requests[1] == s.requests[1] && 0 in s4.erasures;
    OneStep(h, s4, t5, [], [m], {});
  }

  /** An administrator replaces the metadata of an operational event that is on hold. */
  lemma OperationalEdited(h: Hashing, admin: Address, m: Bytes, other: Bytes)
    requires |other| <= 1_000 && !IdCollision(h, Event(1, "type", OPERATIONAL, admin, m, None), 0, other)
    ensures var txs := [Tx(1, admin, DoLog("type", OPERATIONAL, m)), Tx(2, admin, DoRule(PlaceHoldOn(0, [1]))),
                        Tx(3, admin, DoUpdate(0, other))];
            var t := Run(h, Opened(admin), txs);
            |t.log| == 1 && t.log[0].event.category == OPERATIONAL && t.log[0].event.metadata == other && Held(t, 0)
  {
    var t1, t2, t3 := Tx(1, admin, DoLog("type", OPERATIONAL, m)), Tx(2, admin, DoRule(PlaceHoldOn(0, [1]))),
                      Tx(3, admin, DoUpdate(0, other));
    var s := Opened(admin);
    var s1 := s.(log := Append(h, [], Event(1, "type", OPERATIONAL, admin, m, None)));
    assert Step(h, s, t1) == s1;
    var s2 := s1.(holds := map[0 := Hold(true, [1], admin, 2, None, 0)]);
    assert Step(h, s1, t2) == s2;
    UpdateSetsMetadata(h, s2.log, 0, other);
    UpdateFrame(h, s2.log, 0, other, 0);
    OneStep(h, s, t1, [t2] + ([t3] + []), [], {});
    OneStep(h, s1, t2, [t3] + [], [], {});
    OneStep(h, s2, t3, [], [], {});
    assert [t1, t2, t3] == [t1] + ([t2] + ([t3] + []));
  }
}
