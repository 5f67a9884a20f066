/** Retention policies, legal holds, compliance exceptions and erasure of event metadata. */
module DataRetention {
  import opened Common
  import opened EventLog

  const OPERATIONAL: Symbol := "operational"
  const DAY: u64 := 86_400

  datatype Error =
    | CallerNotOwner | InvalidRetentionPeriod | EmptyComplianceReason | EventDoesNotExist | LegalHoldNotFound
    | OperationalEventNotErasable | EventAlreadyErased | ErasureRequestNotFound | ErasureRequestAlreadyDecided
    | EventOnLegalHold | ComplianceExceptionActive | MetadataSchemaViolation | MetadataTooLarge | InvalidVersion | Overflow

  datatype Policy = Policy(days: u32, basis: Symbol, setBy: Address, setAt: u64)

  datatype Hold = Hold(active: bool, reason: Bytes, placedBy: Address, placedAt: u64, releasedBy: Option<Address>, releasedAt: u64)

  datatype Exception = Exception(reason: Bytes, grantedBy: Address, grantedAt: u64, expiresAt: u64)

  datatype Status = Pending | Fulfilled | Denied

  datatype Request = Request(
    requester: Address, index: u32, reason: Symbol, requestedAt: u64, status: Status,
    decidedBy: Option<Address>, decidedAt: u64, justification: Bytes)

  datatype Erasure = Erasure(erased: bool, at: u64, erasedBy: Address, originalHash: Digest, reason: Symbol)

  /** The counters of a report never pass the number of events, so none of them overflows. */
  datatype Report = Report(
    checked: nat, compliant: nat, blockedByHold: nat, blockedByException: nat, erasable: nat, alreadyErased: nat)

  /** One entry of an event's history. */
  datatype Version = Version(event: Event, prevHash: Digest, eventHash: Digest, updatedAt: u64, updatedBy: Address)

  /** The bounds on metadata: per event type with a schema the length it demands, per type
      with a limit of its own that limit, and the limit for all others. */
  datatype Limits = Limits(minLength: map<Symbol, u32>, maxLength: map<Symbol, u32>, globalMax: u32)

  datatype State = State(
    log: Log, versions: map<u32, seq<Version>>, limits: Limits, admins: set<Address>, policies: map<Symbol, Policy>, defaultDays: u32,
    holds: map<u32, Hold>, exceptions: map<u32, Exception>,
    requests: map<u32, Request>, requestCount: u32, erasures: map<u32, Erasure>)

  function RetentionDays(s: State, category: Symbol): u32 {
    if category in s.policies then s.policies[category].days else s.defaultDays
  }

  predicate Held(s: State, i: u32) {
    i in s.holds && s.holds[i].active
  }

  predicate Excepted(s: State, now: u64, i: u32) {
    i in s.exceptions && (s.exceptions[i].expiresAt == 0 || s.exceptions[i].expiresAt > now)
  }

  predicate IsErased(s: State, i: u32) {
    i in s.erasures && s.erasures[i].erased
  }

  function MaxLength(l: Limits, eventType: Symbol): u32 {
    if eventType in l.maxLength then l.maxLength[eventType] else l.globalMax
  }

  predicate Fits(l: Limits, eventType: Symbol, metadata: Bytes) {
    eventType in l.minLength ==> |metadata| >= l.minLength[eventType]
  }

  /** The schema of the event's type, if there is one, accepts empty metadata. */
  predicate AcceptsEmpty(s: State, i: u32)
    requires i < |s.log|
  {
    Fits(s.limits, s.log[i].event.eventType, [])
  }

  datatype Class = Compliant | AlreadyErased | BlockedByHold | BlockedByException | Erasable

  /** Where an event stands with respect to its retention period. */
  function Classify(s: State, now: u64, i: u32): Class
    requires i < |s.log|
  {
    var e := s.log[i].event;
    if e.category == OPERATIONAL then Compliant
    else if IsErased(s, i) then AlreadyErased
    else if RetentionDays(s, e.category) == 0 then Compliant
    else if SatSub(now, e.timestamp) <= RetentionDays(s, e.category) * DAY then Compliant
    else if Held(s, i) then BlockedByHold
    else if Excepted(s, now, i) then BlockedByException
    else Erasable
  }

  /** The exclusive end of a bounded batch. */
  function BatchEnd(total: u32, start: u32, batch: u32): u32 {
    if SatAdd(start, batch) < total then start + batch else total
  }

  function Bucket(r: Report, c: Class): nat {
    match c
    case Compliant => r.compliant
    case AlreadyErased => r.alreadyErased
    case BlockedByHold => r.blockedByHold
    case BlockedByException => r.blockedByException
    case Erasable => r.erasable
  }

  function Tick(r: Report, c: Class): Report {
    match c
    case Compliant => r.(checked := r.checked + 1, compliant := r.compliant + 1)
    case AlreadyErased => r.(checked := r.checked + 1, alreadyErased := r.alreadyErased + 1)
    case BlockedByHold => r.(checked := r.checked + 1, blockedByHold := r.blockedByHold + 1)
    case BlockedByException => r.(checked := r.checked + 1, blockedByException := r.blockedByException + 1)
    case Erasable => r.(checked := r.checked + 1, erasable := r.erasable + 1)
  }

  /** The classes of the existing events of [lo, hi), counted: every event in exactly one bucket. */
  function Survey(s: State, now: u64, lo: nat, hi: nat): Report
    decreases hi
  {
    if hi <= lo || hi > |s.log| then Report(0, 0, 0, 0, 0, 0)
    else Tick(Survey(s, now, lo, hi - 1), Classify(s, now, hi - 1))
  }

  /** How many existing events of [lo, hi) fall in one class. */
  function Count(s: State, now: u64, lo: nat, hi: nat, c: Class): nat
    decreases hi
  {
    if hi <= lo || hi > |s.log| then 0
    else Count(s, now, lo, hi - 1, c) + (if Classify(s, now, hi - 1) == c then 1 else 0)
  }

  lemma {:induction false} SurveyCounts(s: State, now: u64, lo: nat, hi: nat, c: Class)
    ensures Bucket(Survey(s, now, lo, hi), c) == Count(s, now, lo, hi, c)
    decreases hi
  {
    if lo < hi <= |s.log| {
      SurveyCounts(s, now, lo, hi - 1, c);
    }
  }

  lemma {:induction false} SurveyAddsUp(s: State, now: u64, lo: nat, hi: nat)
    ensures var r := Survey(s, now, lo, hi);
            && r.checked == r.compliant + r.blockedByHold + r.blockedByException + r.erasable + r.alreadyErased
            && r.checked == if lo <= hi <= |s.log| then hi - lo else 0
    decreases hi
  {
    if lo < hi <= |s.log| {
      SurveyAddsUp(s, now, lo, hi - 1);
    }
  }

  /** The version an event counts as before it is ever changed. */
  function First(entry: Entry): Version {
    Version(entry.event, entry.prevHash, entry.eventHash, entry.event.timestamp, entry.event.submitter)
  }

  function History(s: State, i: u32): seq<Version>
    requires i < |s.log|
  {
    if i in s.versions then s.versions[i] else [First(s.log[i])]
  }

  /** The version recorded for an event put in place at `i`. */
  function Latest(h: Hashing, s: State, now: u64, who: Address, i: u32, event: Event): Version
    requires i < |s.log|
  {
    var prev := HashBefore(h, s.log, i);
    Version(event, prev, h.link(IdOf(h, event, i), prev, i, event.timestamp), now, who)
  }

  /** New metadata for event `i`, and a new version; nothing when the id stays the same. */
  function Amend(h: Hashing, s: State, now: u64, who: Address, i: u32, metadata: Bytes): State
    requires i < |s.log|
  {
    var event := s.log[i].event.(metadata := metadata);
    if IdOf(h, event, i) == s.log[i].id then s
    else
      var past := if i in s.versions && s.versions[i] != [] then s.versions[i] else [First(s.log[i])];
      s.(log := Update(h, s.log, i, metadata), versions := s.versions[i := past + [Latest(h, s, now, who, i, event)]])
  }

  /** The `update_event` entry point. */
  function UpdateMetadata(h: Hashing, s: State, now: u64, who: Address, i: u32, metadata: Bytes): Result<State, Error> {
    if who !in s.admins then Failure(CallerNotOwner)
    else if i >= |s.log| then Failure(EventDoesNotExist)
    else if |metadata| > MaxLength(s.limits, s.log[i].event.eventType) then Failure(MetadataTooLarge)
    else if !Fits(s.limits, s.log[i].event.eventType, metadata) then Failure(MetadataSchemaViolation)
    else Success(Amend(h, s, now, who, i, metadata))
  }

  /** An earlier version back in place, whatever limits and schemas say by now. */
  function RollbackTo(h: Hashing, s: State, now: u64, who: Address, i: u32, event: Event): State
    requires i < |s.log|
  {
    if IdOf(h, event, i) == s.log[i].id then s
    else s.(log := Restore(h, s.log, i, event),
            versions := s.versions[i := History(s, i) + [Latest(h, s, now, who, i, event)]])
  }

  /** The `rollback_event` entry point. */
  function Rollback(h: Hashing, s: State, now: u64, who: Address, i: u32, version: u32): Result<State, Error> {
    if who !in s.admins then Failure(CallerNotOwner)
    else if i >= |s.log| then Failure(EventDoesNotExist)
    else if version >= |History(s, i)| then Failure(InvalidVersion)
    else Success(RollbackTo(h, s, now, who, i, History(s, i)[version].event))
  }

  function Redact(h: Hashing, s: State, now: u64, who: Address, i: u32, reason: Symbol): State
    requires i < |s.log|
  {
    Amend(h, s, now, who, i, []).(
       erasures := s.erasures[i := Erasure(true, now, who, h.sha(s.log[i].event.metadata), reason)])
  }

  function SetPolicy(s: State, now: u64, who: Address, category: Symbol, days: u32, basis: Symbol): Result<State, Error> {
    if who !in s.admins then Failure(CallerNotOwner)
    else if days == 0 then Failure(InvalidRetentionPeriod)
    else Success(s.(policies := s.policies[category := Policy(days, basis, who, now)]))
  }

  function SetDefault(s: State, who: Address, days: u32): Result<State, Error> {
    if who !in s.admins then Failure(CallerNotOwner) else Success(s.(defaultDays := days))
  }

  function PlaceHold(s: State, now: u64, who: Address, i: u32, reason: Bytes): Result<State, Error> {
    if who !in s.admins then Failure(CallerNotOwner)
    else if reason == [] then Failure(EmptyComplianceReason)
    else if i >= |s.log| then Failure(EventDoesNotExist)
    else Success(s.(holds := s.holds[i := Hold(true, reason, who, now, None, 0)]))
  }

  function ReleaseHold(s: State, now: u64, who: Address, i: u32): Result<State, Error> {
    if who !in s.admins then Failure(CallerNotOwner)
    else if !Held(s, i) then Failure(LegalHoldNotFound)
    else Success(s.(holds := s.holds[i := s.holds[i].(active := false, releasedBy := Some(who), releasedAt := now)]))
  }

  function Grant(s: State, now: u64, who: Address, i: u32, reason: Bytes, expiresAt: u64): Result<State, Error> {
    if who !in s.admins then Failure(CallerNotOwner)
    else if reason == [] then Failure(EmptyComplianceReason)
    else if i >= |s.log| then Failure(EventDoesNotExist)
    else Success(s.(exceptions := s.exceptions[i := Exception(reason, who, now, expiresAt)]))
  }

  function Revoke(s: State, who: Address, i: u32): Result<State, Error> {
    if who !in s.admins then Failure(CallerNotOwner) else Success(s.(exceptions := s.exceptions - {i}))
  }

  function RequestErasure(s: State, now: u64, who: Address, i: u32, reason: Symbol): Result<State, Error> {
    if i >= |s.log| then Failure(EventDoesNotExist)
    else if s.log[i].event.category == OPERATIONAL then Failure(OperationalEventNotErasable)
    else if IsErased(s, i) then Failure(EventAlreadyErased)
    else if s.requestCount == U32_MAX then Failure(Overflow)
    else Success(s.(requestCount := s.requestCount + 1,
                    requests := s.requests[s.requestCount := Request(who, i, reason, now, Pending, None, 0, [])]))
  }

  function Decided(r: Request, now: u64, who: Address, status: Status, justification: Bytes): Request {
    r.(status := status, decidedBy := Some(who), decidedAt := now, justification := justification)
  }

  function Process(h: Hashing, s: State, now: u64, who: Address, id: u32, approve: bool, justification: Bytes)
    : Result<State, Error>
  {
    if who !in s.admins then Failure(CallerNotOwner)
    else if id !in s.requests then Failure(ErasureRequestNotFound)
    else
      var r := s.requests[id];
      if r.status != Pending then Failure(ErasureRequestAlreadyDecided)
      else if !approve then Success(s.(requests := s.requests[id := Decided(r, now, who, Denied, justification)]))
      else if r.index >= |s.log| then Failure(EventDoesNotExist)
      else if s.log[r.index].event.category == OPERATIONAL then Failure(OperationalEventNotErasable)
      else if Held(s, r.index) then Failure(EventOnLegalHold)
      else if Excepted(s, now, r.index) then Failure(ComplianceExceptionActive)
      else if !AcceptsEmpty(s, r.index) then Failure(MetadataSchemaViolation)
      else Success(Redact(h, s, now, who, r.index, r.reason).(
                     requests := s.requests[id := Decided(r, now, who, Fulfilled, justification)]))
  }

  datatype Swept = Swept(state: State, erased: nat)

  /** The events [i, end) in order, redacting those that are erasable and counting on from `n`. */
  function Sweep(h: Hashing, s: State, now: u64, who: Address, i: nat, end: nat, n: nat): Result<Swept, Error>
    requires end <= |s.log|
    decreases end - i
  {
    if i >= end then Success(Swept(s, n))
    else if Classify(s, now, i) != Erasable then Sweep(h, s, now, who, i + 1, end, n)
    else if !AcceptsEmpty(s, i) then Failure(MetadataSchemaViolation)
    else Sweep(h, Redact(h, s, now, who, i, "retention_expired"), now, who, i + 1, end, n + 1)
  }

  function RunSweep(h: Hashing, s: State, now: u64, who: Address, start: u32, batch: u32): Result<Swept, Error> {
    if who !in s.admins then Failure(CallerNotOwner)
    else Sweep(h, s, now, who, start, BatchEnd(|s.log|, start, batch), 0)
  }

  /** A new event, business or operational, as the ledger appends it. */
  function LogEvent(h: Hashing, s: State, now: u64, who: Address, eventType: Symbol, category: Symbol, metadata: Bytes)
    : Result<State, Error>
  {
    if |s.log| == U32_MAX then Failure(Overflow)
    else Success(s.(log := Append(h, s.log, Event(now, eventType, category, who, metadata, None))))
  }

  // Frame of a redaction, used by the sweep's loop and by every theorem about runs

  lemma RedactFrame(h: Hashing, s: State, now: u64, who: Address, i: u32, reason: Symbol, k: u32)
    requires i < |s.log| && k < |s.log|
    ensures var t := Redact(h, s, now, who, i, reason);
            && |t.log| == |s.log| && t.log == Update(h, s.log, i, [])
            && t.log[k].event == s.log[k].event.(metadata := t.log[k].event.metadata, parent := t.log[k].event.parent)
            && (k != i ==> t.log[k].event.metadata == s.log[k].event.metadata)
  {
    UpdateFrame(h, s.log, i, [], k);
  }

  lemma RedactClass(h: Hashing, s: State, now: u64, who: Address, i: u32, reason: Symbol, k: u32)
    requires i < |s.log| && k < |s.log|
    ensures var t := Redact(h, s, now, who, i, reason);
            && Classify(t, now, k) == (if k == i && s.log[i].event.category != OPERATIONAL then AlreadyErased
                                       else Classify(s, now, k))
            && (AcceptsEmpty(t, k) <==> AcceptsEmpty(s, k))
  {
    RedactFrame(h, s, now, who, i, reason, k);
  }

  lemma RedactClasses(h: Hashing, s: State, now: u64, who: Address, i: u32, reason: Symbol)
    requires i < |s.log| && s.log[i].event.category != OPERATIONAL
    ensures var t := Redact(h, s, now, who, i, reason);
            && |t.log| == |s.log|
            && (forall k: u32 | k < |s.log| :: Classify(t, now, k) == if k == i then AlreadyErased else Classify(s, now, k))
            && (forall k: u32 | k < |s.log| :: AcceptsEmpty(t, k) <==> AcceptsEmpty(s, k))
  {
    forall k: u32 | k < |s.log|
      ensures Classify(Redact(h, s, now, who, i, reason), now, k) == if k == i then AlreadyErased else Classify(s, now, k)
      ensures AcceptsEmpty(Redact(h, s, now, who, i, reason), k) <==> AcceptsEmpty(s, k)
    {
      RedactClass(h, s, now, who, i, reason, k);
    }
  }

  lemma {:induction false} CountFront(s: State, now: u64, lo: nat, hi: nat, c: Class)
    requires lo < hi <= |s.log|
    ensures Count(s, now, lo, hi, c) == (if Classify(s, now, lo) == c then 1 else 0) + Count(s, now, lo + 1, hi, c)
    decreases hi
  {
    if lo + 1 < hi {
      CountFront(s, now, lo, hi - 1, c);
    }
  }

  /** Counts over ranges that agree event by event agree. */
  lemma {:induction false} CountAgrees(s: State, t: State, now: u64, lo: nat, hi: nat, c: Class)
    requires |s.log| == |t.log| && hi <= |s.log|
    requires forall k: u32 | lo <= k < hi :: Classify(s, now, k) == Classify(t, now, k)
    ensures Count(s, now, lo, hi, c) == Count(t, now, lo, hi, c)
    decreases hi
  {
    if lo < hi {
      CountAgrees(s, t, now, lo, hi - 1, c);
    }
  }

  lemma RedactCount(h: Hashing, s: State, now: u64, who: Address, i: u32, reason: Symbol, lo: nat, hi: nat)
    requires i < lo && hi <= |s.log| && i < |s.log| && s.log[i].event.category != OPERATIONAL
    ensures Count(Redact(h, s, now, who, i, reason), now, lo, hi, Erasable) == Count(s, now, lo, hi, Erasable)
  {
    RedactClasses(h, s, now, who, i, reason);
    CountAgrees(s, Redact(h, s, now, who, i, reason), now, lo, hi, Erasable);
  }

  /** A sweep aborts exactly when an erasable event of its range has a type whose schema
      rejects empty metadata. */
  lemma {:induction false} SweepSucceedsIff(h: Hashing, s: State, now: u64, who: Address, i: nat, end: nat, n: nat)
    requires end <= |s.log|
    ensures Sweep(h, s, now, who, i, end, n).Success? <==>
            forall k: u32 | i <= k < end && Classify(s, now, k) == Erasable :: AcceptsEmpty(s, k)
    decreases end - i
  {
    if i < end {
      if Classify(s, now, i) != Erasable {
        SweepSucceedsIff(h, s, now, who, i + 1, end, n);
      } else if AcceptsEmpty(s, i) {
        RedactClasses(h, s, now, who, i, "retention_expired");
        SweepSucceedsIff(h, Redact(h, s, now, who, i, "retention_expired"), now, who, i + 1, end, n + 1);
      }
    }
  }

  /** A sweep that succeeds returns the number of erasable events it found beforehand. */
  lemma {:induction false} SweepReturnsCount(h: Hashing, s: State, now: u64, who: Address, i: nat, end: nat, n: nat)
    requires end <= |s.log| && Sweep(h, s, now, who, i, end, n).Success?
    ensures Sweep(h, s, now, who, i, end, n).value.erased == n + Count(s, now, i, end, Erasable)
    decreases end - i
  {
    if i < end {
      CountFront(s, now, i, end, Erasable);
      if Classify(s, now, i) != Erasable {
        SweepReturnsCount(h, s, now, who, i + 1, end, n);
      } else {
        RedactCount(h, s, now, who, i, "retention_expired", i + 1, end);
        SweepReturnsCount(h, Redact(h, s, now, who, i, "retention_expired"), now, who, i + 1, end, n + 1);
      }
    }
  }

  function ClassAfter(s: State, now: u64, i: nat, end: nat, k: u32): Class
    requires k < |s.log|
  {
    if i <= k < end && Classify(s, now, k) == Erasable then AlreadyErased else Classify(s, now, k)
  }

  /** A sweep erases exactly the erasable events of its range: they become erased, and
      every other event keeps its class. */
  lemma {:induction false} SweepClass(h: Hashing, s: State, now: u64, who: Address, i: nat, end: nat, n: nat, k: u32)
    requires end <= |s.log| && Sweep(h, s, now, who, i, end, n).Success? && k < |s.log|
    ensures var t := Sweep(h, s, now, who, i, end, n).value.state;
            |t.log| == |s.log| && Classify(t, now, k) == ClassAfter(s, now, i, end, k)
    decreases end - i
  {
    if i < end {
      if Classify(s, now, i) != Erasable {
        SweepClass(h, s, now, who, i + 1, end, n, k);
      } else {
        RedactClass(h, s, now, who, i, "retention_expired", k);
        SweepClass(h, Redact(h, s, now, who, i, "retention_expired"), now, who, i + 1, end, n + 1, k);
      }
    }
  }

  class Contract {
    const h: Hashing
    const admins: set<Address>
    const limits: Limits
    var log: Log
    var versions: map<u32, seq<Version>>
    var policies: map<Symbol, Policy>
    var defaultDays: u32
    var holds: map<u32, Hold>
    var exceptions: map<u32, Exception>
    var requests: map<u32, Request>
    var requestCount: u32
    var erasures: map<u32, Erasure>

    ghost function Ledger(): State
      reads this
    {
      State(log, versions, limits, admins, policies, defaultDays, holds, exceptions, requests, requestCount, erasures)
    }

    constructor (h: Hashing, admins: set<Address>, limits: Limits)
      ensures Ledger() == State([], map[], limits, admins, map[], 0, map[], map[], map[], 0, map[]) && this.h == h
    {
      this.h, this.admins, this.limits := h, admins, limits;
      versions := map[];
      log, policies, defaultDays, holds, exceptions := [], map[], 0, map[], map[];
      requests, requestCount, erasures := map[], 0, map[];
    }

    method SetRetentionPolicy(now: u64, caller: Address, category: Symbol, days: u32, basis: Symbol) returns (error: Option<Error>)
      modifies `policies
      ensures Commits(SetPolicy(old(Ledger()), now, caller, category, days, basis), old(Ledger()), Ledger(), error)
    {
      if caller !in admins {
        return Some(CallerNotOwner);
      }
      if days == 0 {
        return Some(InvalidRetentionPeriod);
      }
      policies := policies[category := Policy(days, basis, caller, now)];
      error := None;
    }

    method SetDefaultRetentionDays(caller: Address, days: u32) returns (error: Option<Error>)
      modifies `defaultDays
      ensures Commits(SetDefault(old(Ledger()), caller, days), old(Ledger()), Ledger(), error)
    {
      if caller !in admins {
        return Some(CallerNotOwner);
      }
      defaultDays := days;
      error := None;
    }

    method PlaceLegalHold(now: u64, caller: Address, index: u32, reason: Bytes) returns (error: Option<Error>)
      modifies `holds
      ensures Commits(PlaceHold(old(Ledger()), now, caller, index, reason), old(Ledger()), Ledger(), error)
    {
      if caller !in admins {
        return Some(CallerNotOwner);
      }
      if |reason| == 0 {
        return Some(EmptyComplianceReason);
      }
      if index >= |log| {
        return Some(EventDoesNotExist);
      }
      holds := holds[index := Hold(true, reason, caller, now, None, 0)];
      error := None;
    }

    method ReleaseLegalHold(now: u64, caller: Address, index: u32) returns (error: Option<Error>)
      modifies `holds
      ensures Commits(ReleaseHold(old(Ledger()), now, caller, index), old(Ledger()), Ledger(), error)
    {
      if caller !in admins {
        return Some(CallerNotOwner);
      }
      if index !in holds {
        return Some(LegalHoldNotFound);
      }
      var hold := holds[index];
      if !hold.active {
        return Some(LegalHoldNotFound);
      }
      hold := hold.(active := false, releasedBy := Some(caller), releasedAt := now);
      holds := holds[index := hold];
      error := None;
    }

    method GrantComplianceException(now: u64, caller: Address, index: u32, reason: Bytes, expiresAt: u64)
      returns (error: Option<Error>)
      modifies `exceptions
      ensures Commits(Grant(old(Ledger()), now, caller, index, reason, expiresAt), old(Ledger()), Ledger(), error)
    {
      if caller !in admins {
        return Some(CallerNotOwner);
      }
      if |reason| == 0 {
        return Some(EmptyComplianceReason);
      }
      if index >= |log| {
        return Some(EventDoesNotExist);
      }
      exceptions := exceptions[index := Exception(reason, caller, now, expiresAt)];
      error := None;
    }

    method RevokeComplianceException(caller: Address, index: u32) returns (error: Option<Error>)
      modifies `exceptions
      ensures Commits(Revoke(old(Ledger()), caller, index), old(Ledger()), Ledger(), error)
    {
      if caller !in admins {
        return Some(CallerNotOwner);
      }
      exceptions := exceptions - {index};
      error := None;
    }

    method SubmitErasureRequest(now: u64, requester: Address, index: u32, reason: Symbol) returns (id: Result<u32, Error>)
      modifies `requests, `requestCount
      ensures Commits(RequestErasure(old(Ledger()), now, requester, index, reason), old(Ledger()), Ledger(),
                      if id.Success? then None else Some(id.error))
      ensures id.Success? ==> id.value == old(requestCount)
    {
      if index >= |log| {
        return Failure(EventDoesNotExist);
      }
      if log[index].event.category == OPERATIONAL {
        return Failure(OperationalEventNotErasable);
      }
      if index in erasures && erasures[index].erased {
        return Failure(EventAlreadyErased);
      }
      if requestCount == U32_MAX {
        return Failure(Overflow);
      }
      var current := requestCount;
      requests := requests[current := Request(requester, index, reason, now, Pending, None, 0, [])];
      requestCount := current + 1;
      id := Success(current);
    }

    /** Checks the caller, the length and the schema, and replaces the metadata unless that
        leaves the id as it is. */
    method UpdateEventMetadata(now: u64, caller: Address, index: u32, metadata: Bytes) returns (error: Option<Error>)
      modifies `log, `versions
      ensures Commits(UpdateMetadata(h, old(Ledger()), now, caller, index, metadata), old(Ledger()), Ledger(), error)
    {
      if caller !in admins {
        return Some(CallerNotOwner);
      }
      if index >= |log| {
        return Some(EventDoesNotExist);
      }
      var current := log[index];
      var max := if current.event.eventType in limits.maxLength then limits.maxLength[current.event.eventType] else limits.globalMax;
      if |metadata| > max {
        return Some(MetadataTooLarge);
      }
      if current.event.eventType in limits.minLength && |metadata| < limits.minLength[current.event.eventType] {
        return Some(MetadataSchemaViolation);
      }
      var event := current.event.(metadata := metadata);
      var newId := h.eventId(event.submitter, event.eventType, metadata, event.timestamp, index);
      if newId == current.id {
        return None;
      }
      var history: seq<Version> := if index in versions then versions[index] else [];
      if history == [] {
        history := [First(current)];
      }
      var prevHash := if index == 0 then h.genesis else log[index - 1].eventHash;
      var eventHash := h.link(newId, prevHash, index, event.timestamp);
      versions := versions[index := history + [Version(event, prevHash, eventHash, now, caller)]];
      log := UpdateEvent(h, log, index, metadata);
      error := None;
    }

    method RollbackEvent(now: u64, caller: Address, index: u32, version: u32) returns (error: Option<Error>)
      modifies `log, `versions
      ensures Commits(Rollback(h, old(Ledger()), now, caller, index, version), old(Ledger()), Ledger(), error)
    {
      if caller !in admins {
        return Some(CallerNotOwner);
      }
      if index >= |log| {
        return Some(EventDoesNotExist);
      }
      var history := if index in versions then versions[index] else [First(log[index])];
      if version >= |history| {
        return Some(InvalidVersion);
      }
      var event := history[version].event;
      var newId := h.eventId(event.submitter, event.eventType, event.metadata, event.timestamp, index);
      if newId == log[index].id {
        return None;
      }
      var prevHash := if index == 0 then h.genesis else log[index - 1].eventHash;
      var eventHash := h.link(newId, prevHash, index, event.timestamp);
      versions := versions[index := history + [Version(event, prevHash, eventHash, now, caller)]];
      log := RestoreEvent(h, log, index, event);
      error := None;
    }

    /** Digests the metadata, blanks it through the update, and records the erasure. */
    method RedactEvent(now: u64, caller: Address, i: u32, reason: Symbol) returns (error: Option<Error>)
      requires i < |log| && caller in admins
      modifies `log, `versions, `erasures
      ensures error == if AcceptsEmpty(old(Ledger()), i) then None else Some(MetadataSchemaViolation)
      ensures Ledger() == if error == None then Redact(h, old(Ledger()), now, caller, i, reason) else old(Ledger())
    {
      var originalHash := h.sha(log[i].event.metadata);
      error := UpdateEventMetadata(now, caller, i, []);
      if error == None {
        erasures := erasures[i := Erasure(true, now, caller, originalHash, reason)];
      }
    }

    method ProcessErasureRequest(now: u64, caller: Address, id: u32, approve: bool, justification: Bytes)
      returns (error: Option<Error>)
      modifies `log, `versions, `erasures, `requests
      ensures Commits(Process(h, old(Ledger()), now, caller, id, approve, justification), old(Ledger()), Ledger(), error)
    {
      if caller !in admins {
        return Some(CallerNotOwner);
      }
      if id !in requests {
        return Some(ErasureRequestNotFound);
      }
      var request := requests[id];
      if request.status != Pending {
        return Some(ErasureRequestAlreadyDecided);
      }
      var index := request.index;
      if approve {
        if index >= |log| {
          return Some(EventDoesNotExist);
        }
        var event := log[index].event;
        if event.category == OPERATIONAL {
          return Some(OperationalEventNotErasable);
        }
        if index in holds && holds[index].active {
          return Some(EventOnLegalHold);
        }
        if index in exceptions && (exceptions[index].expiresAt == 0 || exceptions[index].expiresAt > now) {
          return Some(ComplianceExceptionActive);
        }
        var failed := RedactEvent(now, caller, index, request.reason);
        if failed.Some? {
          return failed;
        }
        request := request.(status := Fulfilled);
      } else {
        request := request.(status := Denied);
      }
      request := request.(decidedBy := Some(caller), decidedAt := now, justification := justification);
      requests := requests[id := request];
      error := None;
    }

    /** The chain of checks that `VerifyRetentionCompliance` and `RunRetentionSweep` both make. */
    method ClassifyEvent(now: u64, i: u32) returns (c: Class)
      requires i < |log|
      ensures c == Classify(Ledger(), now, i)
    {
      var event := log[i].event;
      if event.category == OPERATIONAL {
        return Compliant;
      }
      if i in erasures && erasures[i].erased {
        return AlreadyErased;
      }
      var days := if event.category in policies then policies[event.category].days else defaultDays;
      if days == 0 {
        return Compliant;
      }
      if SatSub(now, event.timestamp) <= days * DAY {
        return Compliant;
      }
      if i in holds && holds[i].active {
        return BlockedByHold;
      }
      if i in exceptions && (exceptions[i].expiresAt == 0 || exceptions[i].expiresAt > now) {
        return BlockedByException;
      }
      c := Erasable;
    }

    /** The report is the survey of the batch: every event counted once, in its own class. */
    method VerifyRetentionCompliance(now: u64, start: u32, batch: u32) returns (report: Report)
      ensures report == Survey(Ledger(), now, start, BatchEnd(|log|, start, batch))
    {
      ghost var s := Ledger();
      var end: u32 := |log|;
      if SatAdd(start, batch) < |log| {
        end := start + batch;
      }
      report := Report(0, 0, 0, 0, 0, 0);
      var i := start;
      while i < end
        invariant start <= i && (i <= end || i == start)
        invariant report == Survey(s, now, start, i)
      {
        var c := ClassifyEvent(now, i);
        report := Tick(report, c);
        i := i + 1;
      }
    }

    /** One turn of the sweep's loop: redacts event `i` if it is erasable. */
    method SweepOne(now: u64, caller: Address, i: u32) returns (erased: Result<bool, Error>)
      requires i < |log| && caller in admins
      modifies `log, `versions, `erasures
      ensures Classify(old(Ledger()), now, i) != Erasable ==> erased == Success(false) && Ledger() == old(Ledger())
      ensures Classify(old(Ledger()), now, i) == Erasable ==>
                if AcceptsEmpty(old(Ledger()), i)
                then erased == Success(true) && Ledger() == Redact(h, old(Ledger()), now, caller, i, "retention_expired")
                else erased == Failure(MetadataSchemaViolation) && Ledger() == old(Ledger())
    {
      var c := ClassifyEvent(now, i);
      if c != Erasable {
        return Success(false);
      }
      var error := RedactEvent(now, caller, i, "retention_expired");
      erased := if error.Some? then Failure(error.value) else Success(true);
    }

    /** The loop of the sweep, up to the first redaction that fails. */
    method SweepRange(now: u64, caller: Address, start: u32, end: u32) returns (erased: Result<u32, Error>)
      requires end <= |log| && caller in admins
      modifies `log, `versions, `erasures
      ensures match Sweep(h, old(Ledger()), now, caller, start, end, 0)
              case Success(r) => erased == Success(r.erased) && Ledger() == r.state
              case Failure(e) => erased == Failure(e)
    {
      ghost var total, whole := |log|, Sweep(h, Ledger(), now, caller, start, end, 0);
      var erasedCount: u32 := 0;
      var i := start;
      while i < end
        invariant start <= i && (i <= end || i == start) && erasedCount <= i - start
        invariant |log| == total
        invariant whole == Sweep(h, Ledger(), now, caller, i, end, erasedCount)
      {
        var hit := SweepOne(now, caller, i);
        if hit.Failure? {
          return Failure(hit.error);
        }
        if hit.value {
          erasedCount := erasedCount + 1;
        }
        i := i + 1;
      }
      erased := Success(erasedCount);
    }

    /** A redaction that fails undoes those before it. Returns exactly the number of events that the report calls erasable beforehand. */
    method RunRetentionSweep(now: u64, caller: Address, start: u32, batch: u32) returns (erased: Result<u32, Error>)
      modifies `log, `versions, `erasures
      ensures match RunSweep(h, old(Ledger()), now, caller, start, batch)
              case Success(r) => erased == Success(r.erased) && Ledger() == r.state
              case Failure(e) => erased == Failure(e) && Ledger() == old(Ledger())
      ensures erased.Success? ==>
                erased.value == Survey(old(Ledger()), now, start, BatchEnd(|old(log)|, start, batch)).erasable
    {
      if caller !in admins {
        return Failure(CallerNotOwner);
      }
      var end: u32 := |log|;
      if SatAdd(start, batch) < |log| {
        end := start + batch;
      }
      ghost var s := Ledger();
      var logBefore, versionsBefore, erasuresBefore := log, versions, erasures;
      erased := SweepRange(now, caller, start, end);
      if erased.Success? {
        SweepReturnsCount(h, s, now, caller, start, end, 0);
        SurveyCounts(s, now, start, end, Erasable);
      } else {
        log, versions, erasures := logBefore, versionsBefore, erasuresBefore;
      }
    }

    method Append(now: u64, submitter: Address, eventType: Symbol, category: Symbol, metadata: Bytes)
      returns (error: Option<Error>)
      modifies `log
      ensures Commits(LogEvent(h, old(Ledger()), now, submitter, eventType, category, metadata), old(Ledger()), Ledger(), error)
    {
      if |log| == U32_MAX {
        return Some(Overflow);
      }
      var index := |log|;
      var prevHash := h.genesis;
      if index > 0 {
        prevHash := log[index - 1].eventHash;
      }
      var id := h.eventId(submitter, eventType, metadata, now, index);
      var eventHash := h.link(id, prevHash, index, now);
      log := log + [Entry(id, Event(now, eventType, category, submitter, metadata, None), prevHash, eventHash)];
      error := None;
    }
  }
}
