/** Quota tiers, the daily event limiter and the telemetry ring. */
module CapacityPlanning {
  import opened Common

  const WINDOW: u64 := 86400
  const RING: u32 := 1000
  const DEFAULT_TIER: Tier := Tier(1, 100_000, 5_000_000)

  datatype Error = QuotaTierNotFound | QuotaExceeded | Overflow

  datatype Tier = Tier(id: u32, maxDaily: u64, costPerMillion: u64)

  datatype Quota = Quota(tierId: u32, used: u64, windowStart: u64, throttled: bool, billed: u64)

  datatype Metric = Metric(
    timestamp: u64, currentTps: u32, peakTps: u32, storageBytes: u64,
    submitters: u32, gasStroops: u64, cpuBasisPoints: u32, memoryMb: u32)

  datatype Ledger = Ledger(tiers: map<u32, Tier>, quotas: map<Address, Quota>)

  datatype Telemetry = Telemetry(slots: map<u32, Metric>, count: u32)

  function TierOf(s: Ledger, tierId: u32): Tier {
    if tierId in s.tiers then s.tiers[tierId] else DEFAULT_TIER
  }

  function QuotaOf(s: Ledger, now: u64, who: Address): Quota {
    if who in s.quotas then s.quotas[who] else Quota(1, 0, now, false, 0)
  }

  /** The exact price of some events, in millionths of a stroop. */
  function Price(tier: Tier, events: u32): nat {
    events * tier.costPerMillion
  }

  function Assign(s: Ledger, now: u64, who: Address, tierId: u32): Result<Ledger, Error> {
    if tierId !in s.tiers then Failure(QuotaTierNotFound)
    else Success(s.(quotas := s.quotas[who := Quota(tierId, 0, now, false, 0)]))
  }

  function Consume(s: Ledger, now: u64, who: Address, events: u32): Result<Ledger, Error> {
    var q0 := QuotaOf(s, now, who);
    var tier := TierOf(s, q0.tierId);
    if q0.windowStart + WINDOW > U64_MAX then Failure(Overflow)
    else
      var q := if now >= q0.windowStart + WINDOW
               then q0.(used := 0, windowStart := now, throttled := false) else q0;
      if q.used + events > U64_MAX then Failure(Overflow)
      else if q.used + events > tier.maxDaily then Failure(QuotaExceeded)
      else if Price(tier, events) > U64_MAX then Failure(Overflow)
      else
        var billed := q.billed + Price(tier, events) / 1_000_000;
        if billed > U64_MAX then Failure(Overflow)
        else Success(s.(quotas := s.quotas[who := q.(used := q.used + events, billed := billed)]))
  }

  function Record(t: Telemetry, m: Metric): Result<Telemetry, Error> {
    if t.count == U32_MAX then Failure(Overflow)
    else Success(Telemetry(t.slots[t.count % RING := m], t.count + 1))
  }

  /** The contract's storage. */
  class Contract {
    var tiers: map<u32, Tier>
    var quotas: map<Address, Quota>
    var slots: map<u32, Metric>
    var count: u32

    ghost function Quotas(): Ledger reads this { Ledger(tiers, quotas) }

    ghost function Ring(): Telemetry reads this { Telemetry(slots, count) }

    constructor ()
      ensures Quotas() == Ledger(map[], map[]) && Ring() == Telemetry(map[], 0)
    {
      tiers, quotas, slots, count := map[], map[], map[], 0;
    }

    method RecordTelemetry(metric: Metric) returns (error: Option<Error>)
      modifies `slots, `count
      ensures Commits(Record(old(Ring()), metric), old(Ring()), Ring(), error)
    {
      var next := count % RING;
      if count == U32_MAX {
        return Some(Overflow);
      }
      slots := slots[next := metric];
      count := count + 1;
      error := None;
    }

    method SetQuotaTier(tier: Tier)
      modifies `tiers
      ensures tiers == old(tiers)[tier.id := tier]
    {
      tiers := tiers[tier.id := tier];
    }

    method SetSubmitterQuota(now: u64, submitter: Address, tierId: u32) returns (error: Option<Error>)
      modifies `quotas
      ensures Commits(Assign(old(Quotas()), now, submitter, tierId), old(Quotas()), Quotas(), error)
    {
      if tierId !in tiers {
        return Some(QuotaTierNotFound);
      }
      quotas := quotas[submitter := Quota(tierId, 0, now, false, 0)];
      error := None;
    }

    /** The `throttled` flag is set just before the panic, and the panic undoes it. */
    method ConsumeQuota(now: u64, submitter: Address, events: u32) returns (error: Option<Error>)
      modifies `quotas
      ensures Commits(Consume(old(Quotas()), now, submitter, events), old(Quotas()), Quotas(), error)
    {
      var record := Quota(1, 0, now, false, 0);
      if submitter in quotas {
        record := quotas[submitter];
      }
      var tier := DEFAULT_TIER;
      if record.tierId in tiers {
        tier := tiers[record.tierId];
      }
      if record.windowStart + WINDOW > U64_MAX {
        return Some(Overflow);
      }
      if now >= record.windowStart + WINDOW {
        record := record.(used := 0, windowStart := now, throttled := false);
      }
      if record.used + events > U64_MAX {
        return Some(Overflow);
      }
      if record.used + events > tier.maxDaily {
        return Some(QuotaExceeded);
      }
      record := record.(used := record.used + events);
      var price := Price(tier, events);
      if price > U64_MAX {
        return Some(Overflow);
      }
      var cost := price / 1_000_000;
      if record.billed + cost > U64_MAX {
        return Some(Overflow);
      }
      record := record.(billed := record.billed + cost);
      quotas := quotas[submitter := record];
      error := None;
    }
  }
}

/** What whole runs of the quota limiter and of the telemetry ring guarantee. */
module CapacityRuns {
  import opened Common
  import opened CapacityPlanning

  datatype Call = SetTier(tier: Tier) | SetQuota(who: Address, tierId: u32) | Use(who: Address, events: u32)

  datatype Tx = Tx(now: u64, call: Call)

  function Now(tx: Tx): nat { tx.now }

  function Attempt(s: Ledger, tx: Tx): Result<Ledger, Error> {
    match tx.call
    case SetTier(t) => Success(s.(tiers := s.tiers[t.id := t]))
    case SetQuota(who, tierId) => Assign(s, tx.now, who, tierId)
    case Use(who, n) => Consume(s, tx.now, who, n)
  }

  function Step(s: Ledger, tx: Tx): Ledger {
    match Attempt(s, tx) case Success(t) => t case Failure(_) => s
  }

  function Run(s: Ledger, txs: seq<Tx>): Ledger
    decreases txs
  {
    if txs == [] then s else Run(Step(s, txs[0]), txs[1..])
  }

  /** No administrator touches `who`'s assignment or the definition of its tier. */
  ghost predicate Undisturbed(txs: seq<Tx>, who: Address, tierId: u32) {
    forall tx <- txs :: match tx.call
                        case SetTier(t) => t.id != tierId
                        case SetQuota(a, _) => a != who
                        case Use(_, _) => true
  }

  /** The events of `who` that one transaction gets accepted. */
  function Accepted(s: Ledger, tx: Tx, who: Address): u32 {
    if tx.call.Use? && tx.call.who == who && Attempt(s, tx).Success? then tx.call.events else 0
  }

  /** The events of `who` accepted at times in [lo, hi). */
  function AcceptedIn(s: Ledger, txs: seq<Tx>, who: Address, lo: nat, hi: nat): nat
    decreases txs
  {
    if txs == [] then 0
    else (if lo <= txs[0].now < hi then Accepted(s, txs[0], who) else 0)
         + AcceptedIn(Step(s, txs[0]), txs[1..], who, lo, hi)
  }

  function Counted(s: Ledger, tx: Tx, who: Address): nat {
    if tx.call.Use? && tx.call.who == who && Attempt(s, tx).Success? then 1 else 0
  }

  /** The number of accepted calls of `who`. */
  function AcceptedCalls(s: Ledger, txs: seq<Tx>, who: Address): nat
    decreases txs
  {
    if txs == [] then 0
    else Counted(s, txs[0], who)
         + AcceptedCalls(Step(s, txs[0]), txs[1..], who)
  }

  function Room(q: Quota, max: nat): nat {
    if q.used <= max then max - q.used else 0
  }

  /** The stored window was opened before `lo` and still runs at `lo`. */
  predicate Straddles(s: Ledger, who: Address, lo: nat) {
    who in s.quotas && s.quotas[who].windowStart < lo < s.quotas[who].windowStart + WINDOW
  }

  /** The most that can still be accepted in [lo, lo + WINDOW) once the clock has reached lo. */
  function Potential(s: Ledger, who: Address, max: nat, lo: nat): nat {
    if who !in s.quotas || s.quotas[who].windowStart + WINDOW <= lo then max
    else if Straddles(s, who, lo) then Room(s.quotas[who], max) + max
    else Room(s.quotas[who], max)
  }

  function OnTier(s: Ledger, who: Address, tierId: u32): bool {
    if who in s.quotas then s.quotas[who].tierId == tierId else tierId == 1
  }

  lemma StepKeepsTier(s: Ledger, tx: Tx, who: Address, tierId: u32)
    requires Undisturbed([tx], who, tierId) && OnTier(s, who, tierId)
    ensures OnTier(Step(s, tx), who, tierId) && TierOf(Step(s, tx), tierId) == TierOf(s, tierId)
  {
    assert tx in [tx];
  }

  lemma PotentialStep(s: Ledger, tx: Tx, who: Address, tierId: u32, lo: nat)
    requires Undisturbed([tx], who, tierId) && OnTier(s, who, tierId) && lo <= tx.now
    ensures var max := TierOf(s, tierId).maxDaily;
            var taken := if tx.now < lo + WINDOW then Accepted(s, tx, who) else 0;
            tx.now < lo + WINDOW ==> taken + Potential(Step(s, tx), who, max, lo) <= Potential(s, who, max, lo)
  {
    assert tx in [tx];
  }

  lemma NothingAfter(s: Ledger, txs: seq<Tx>, who: Address, lo: nat, hi: nat)
    requires forall tx <- txs :: tx.now >= hi
    ensures AcceptedIn(s, txs, who, lo, hi) == 0
    decreases txs
  {
    if txs != [] {
      assert txs[0] in txs;
      NothingAfter(Step(s, txs[0]), txs[1..], who, lo, hi);
    }
  }

  lemma {:induction false} PotentialBounds(s: Ledger, txs: seq<Tx>, who: Address, tierId: u32, lo: nat)
    requires Clocked(txs, Now, lo) && Undisturbed(txs, who, tierId) && OnTier(s, who, tierId)
    ensures AcceptedIn(s, txs, who, lo, lo + WINDOW) <= Potential(s, who, TierOf(s, tierId).maxDaily, lo)
    decreases txs
  {
    if txs != [] {
      var tx := txs[0];
      assert tx in txs;
      if tx.now >= lo + WINDOW {
        forall t <- txs ensures t.now >= lo + WINDOW {
          var i :| 0 <= i < |txs| && txs[i] == t;
        }
        NothingAfter(s, txs, who, lo, lo + WINDOW);
      } else {
        assert Clocked(txs[1..], Now, lo);
        StepKeepsTier(s, tx, who, tierId);
        PotentialStep(s, tx, who, tierId, lo);
        PotentialBounds(Step(s, tx), txs[1..], who, tierId, lo);
      }
    }
  }

  /** Any 24-hour interval, wherever it starts, sees at most twice the daily maximum. */
  lemma {:induction false} IntervalBound(s: Ledger, txs: seq<Tx>, who: Address, tierId: u32, lo: nat)
    requires Clocked(txs, Now, 0) && Undisturbed(txs, who, tierId) && OnTier(s, who, tierId)
    ensures AcceptedIn(s, txs, who, lo, lo + WINDOW) <= 2 * TierOf(s, tierId).maxDaily
    decreases txs
  {
    if txs != [] {
      var tx := txs[0];
      assert tx in txs;
      if tx.now < lo {
        StepKeepsTier(s, tx, who, tierId);
        IntervalBound(Step(s, tx), txs[1..], who, tierId, lo);
      } else {
        assert Clocked(txs, Now, lo);
        PotentialBounds(s, txs, who, tierId, lo);
      }
    }
  }

  lemma WindowStep(s: Ledger, tx: Tx, who: Address, tierId: u32)
    requires Undisturbed([tx], who, tierId)
    requires who in s.quotas && s.quotas[who].tierId == tierId
    requires s.quotas[who].windowStart <= tx.now < s.quotas[who].windowStart + WINDOW
    ensures who in Step(s, tx).quotas
    ensures var q, q' := s.quotas[who], Step(s, tx).quotas[who];
            && q'.tierId == tierId && q'.windowStart == q.windowStart && q'.used == q.used + Accepted(s, tx, who)
            && (Accepted(s, tx, who) > 0 ==> q'.used <= TierOf(s, tierId).maxDaily)
  {
    assert tx in [tx];
  }

  /** Inside the window that is open when the run starts, the running count is a
      true count and the daily maximum is never passed. */
  lemma {:induction false} WindowBound(s: Ledger, txs: seq<Tx>, who: Address, tierId: u32)
    requires Clocked(txs, Now, 0) && Undisturbed(txs, who, tierId)
    requires who in s.quotas && s.quotas[who].tierId == tierId
    requires forall tx <- txs :: s.quotas[who].windowStart <= tx.now < s.quotas[who].windowStart + WINDOW
    ensures who in Run(s, txs).quotas
    ensures var q := s.quotas[who];
            var q' := Run(s, txs).quotas[who];
            var taken := AcceptedIn(s, txs, who, q.windowStart, q.windowStart + WINDOW);
            && q'.windowStart == q.windowStart
            && q'.used == q.used + taken
            && (taken > 0 ==> q'.used <= TierOf(s, tierId).maxDaily)
    decreases txs
  {
    if txs != [] {
      assert txs[0] in txs;
      StepKeepsTier(s, txs[0], who, tierId);
      WindowStep(s, txs[0], who, tierId);
      WindowBound(Step(s, txs[0]), txs[1..], who, tierId);
    }
  }

  function Billed(s: Ledger, who: Address): nat {
    if who in s.quotas then s.quotas[who].billed else 0
  }

  /** The bill for `n` events that are accepted one by one. */
  function UnitCosts(tier: Tier, n: nat): nat {
    if n == 0 then 0 else Price(tier, 1) / 1_000_000 + UnitCosts(tier, n - 1)
  }

  lemma {:induction false} UnitCostsAdd(tier: Tier, m: nat, n: nat)
    ensures UnitCosts(tier, m + n) == UnitCosts(tier, m) + UnitCosts(tier, n)
    decreases m
  {
    if m > 0 {
      UnitCostsAdd(tier, m - 1, n);
    }
  }

  /** `n` calls of one event each, all at time `t`. */
  function Units(who: Address, t: u64, n: nat): seq<Tx> {
    seq(n, _ => Tx(t, Use(who, 1)))
  }

  lemma {:induction false} AcceptedAppend(s: Ledger, a: seq<Tx>, b: seq<Tx>, who: Address, lo: nat, hi: nat)
    ensures AcceptedIn(s, a + b, who, lo, hi) == AcceptedIn(s, a, who, lo, hi) + AcceptedIn(Run(s, a), b, who, lo, hi)
    decreases a
  {
    if a == [] {
      assert a + b == b;
    } else {
      assert (a + b)[1..] == a[1..] + b;
      AcceptedAppend(Step(s, a[0]), a[1..], b, who, lo, hi);
    }
  }

  /** A single event is accepted while the open window has room, or into a new window. */
  lemma SpendOne(s: Ledger, who: Address, tierId: u32, t: u64)
    requires OnTier(s, who, tierId)
    requires (if Lapsed(s, who, t) then t else s.quotas[who].windowStart) + WINDOW <= U64_MAX
    requires (if Lapsed(s, who, t) then 0 else s.quotas[who].used) < TierOf(s, tierId).maxDaily
    requires Billed(s, who) + UnitCosts(TierOf(s, tierId), 1) <= U64_MAX
    ensures var tx := Tx(t, Use(who, 1));
            && Accepted(s, tx, who) == 1
            && Step(s, tx) == s.(quotas := s.quotas[who := Spent(s, who, tierId, t, 1)])
  {
    assert UnitCosts(TierOf(s, tierId), 1) == Price(TierOf(s, tierId), 1) / 1_000_000 + UnitCosts(TierOf(s, tierId), 0);
  }

  predicate Lapsed(s: Ledger, who: Address, t: u64) {
    who in s.quotas ==> s.quotas[who].windowStart + WINDOW <= t
  }

  /** The quota record after `n` single events at time `t`. */
  function Spent(s: Ledger, who: Address, tierId: u32, t: u64, n: nat): Quota
    requires (if Lapsed(s, who, t) then 0 else s.quotas[who].used) + n <= U64_MAX
    requires Billed(s, who) + UnitCosts(TierOf(s, tierId), n) <= U64_MAX
  {
    var billed := Billed(s, who) + UnitCosts(TierOf(s, tierId), n);
    if Lapsed(s, who, t) then Quota(tierId, n, t, false, billed)
    else s.quotas[who].(used := s.quotas[who].used + n, billed := billed)
  }

  /** Single events are accepted one by one until the daily maximum is reached. */
  lemma {:induction false} SpendAll(s: Ledger, who: Address, tierId: u32, t: u64, n: nat, lo: nat)
    requires OnTier(s, who, tierId) && lo <= t < lo + WINDOW
    requires (if Lapsed(s, who, t) then t else s.quotas[who].windowStart) + WINDOW <= U64_MAX
    requires (if Lapsed(s, who, t) then 0 else s.quotas[who].used) + n <= TierOf(s, tierId).maxDaily
    requires Billed(s, who) + UnitCosts(TierOf(s, tierId), n) <= U64_MAX
    ensures AcceptedIn(s, Units(who, t, n), who, lo, lo + WINDOW) == n
    ensures Run(s, Units(who, t, n)) == if n == 0 then s else s.(quotas := s.quotas[who := Spent(s, who, tierId, t, n)])
    decreases n
  {
    if n > 0 {
      var tx := Tx(t, Use(who, 1));
      UnitCostsAdd(TierOf(s, tierId), 1, n - 1);
      SpendOne(s, who, tierId, t);
      assert Units(who, t, n)[0] == tx && Units(who, t, n)[1..] == Units(who, t, n - 1);
      var next := s.(quotas := s.quotas[who := Spent(s, who, tierId, t, 1)]);
      assert Step(s, tx) == next && Accepted(s, tx, who) == 1;
      assert !Lapsed(next, who, t);
      SpendAll(next, who, tierId, t, n - 1, lo);
      assert n > 1 ==> Spent(next, who, tierId, t, n - 1) == Spent(s, who, tierId, t, n);
    }
  }

  /** Neither the clock nor the bill comes near the width of its type. */
  predicate Headroom(s: Ledger, who: Address, tier: Tier, lo: nat) {
    && lo + 2 * WINDOW <= U64_MAX
    && (who in s.quotas ==> s.quotas[who].windowStart + WINDOW <= U64_MAX)
    && Billed(s, who) + UnitCosts(tier, Potential(s, who, tier.maxDaily, lo)) <= U64_MAX
  }

  /** Nothing but single events of `who` at time `t`. */
  ghost predicate Burst(txs: seq<Tx>, who: Address, t: u64) {
    forall i | 0 <= i < |txs| :: txs[i] == Tx(t, Use(who, 1))
  }

  lemma BurstsInOrder(a: seq<Tx>, b: seq<Tx>, who: Address, tierId: u32, t: u64, u: u64)
    requires Burst(a, who, t) && Burst(b, who, u) && t <= u
    ensures Clocked(a + b, Now, t) && Undisturbed(a + b, who, tierId)
  {
    forall tx <- a + b ensures tx.call == Use(who, 1) {
      var i :| 0 <= i < |a + b| && (a + b)[i] == tx;
    }
  }

  /** A burst that uses up the open window; the window's start stays. */
  lemma SpendRest(s: Ledger, who: Address, tierId: u32, lo: u64, room: nat) returns (txs: seq<Tx>, mid: Ledger)
    requires OnTier(s, who, tierId) && Straddles(s, who, lo) && room == Room(s.quotas[who], TierOf(s, tierId).maxDaily)
    requires s.quotas[who].windowStart + WINDOW <= U64_MAX && Billed(s, who) + UnitCosts(TierOf(s, tierId), room) <= U64_MAX
    ensures Burst(txs, who, lo) && AcceptedIn(s, txs, who, lo, lo + WINDOW) == room
    ensures mid == Run(s, txs) && OnTier(mid, who, tierId) && TierOf(mid, tierId) == TierOf(s, tierId)
    ensures who in mid.quotas && mid.quotas[who].windowStart == s.quotas[who].windowStart
    ensures Billed(mid, who) == Billed(s, who) + UnitCosts(TierOf(s, tierId), room)
  {
    txs := Units(who, lo, room);
    mid := Run(s, txs);
    if room > 0 {
      SpendAll(s, who, tierId, lo, room, lo);
    } else {
      assert txs == [];
    }
  }

  /** A burst that uses up a whole new window. */
  lemma SpendDay(s: Ledger, who: Address, tierId: u32, t: u64, lo: nat) returns (txs: seq<Tx>)
    requires OnTier(s, who, tierId) && Lapsed(s, who, t) && lo <= t < lo + WINDOW && t + WINDOW <= U64_MAX
    requires Billed(s, who) + UnitCosts(TierOf(s, tierId), TierOf(s, tierId).maxDaily) <= U64_MAX
    ensures Burst(txs, who, t) && AcceptedIn(s, txs, who, lo, lo + WINDOW) == TierOf(s, tierId).maxDaily
  {
    txs := Units(who, t, TierOf(s, tierId).maxDaily);
    SpendAll(s, who, tierId, t, TierOf(s, tierId).maxDaily, lo);
  }

  /** The rest of the window that is open at `lo`, and then a whole new one. */
  lemma SpendBoth(s: Ledger, who: Address, tierId: u32, lo: nat, room: nat, max: nat) returns (txs: seq<Tx>)
    requires OnTier(s, who, tierId) && Straddles(s, who, lo) && lo + 2 * WINDOW <= U64_MAX
    requires max == TierOf(s, tierId).maxDaily && room == Room(s.quotas[who], max)
    requires Billed(s, who) + UnitCosts(TierOf(s, tierId), room) + UnitCosts(TierOf(s, tierId), max) <= U64_MAX
    ensures Clocked(txs, Now, lo) && Undisturbed(txs, who, tierId)
    ensures AcceptedIn(s, txs, who, lo, lo + WINDOW) == room + max
  {
    var next := s.quotas[who].windowStart + WINDOW;
    var first, mid := SpendRest(s, who, tierId, lo, room);
    assert Lapsed(mid, who, next) && Billed(mid, who) + UnitCosts(TierOf(mid, tierId), max) <= U64_MAX;
    var second := SpendDay(mid, who, tierId, next, lo);
    txs := first + second;
    BurstsInOrder(first, second, who, tierId, lo, next);
    AcceptedAppend(s, first, second, who, lo, lo + WINDOW);
  }

  /** The potential is exact: some run from `lo` on gets all of it accepted. */
  lemma PotentialAttained(s: Ledger, who: Address, tierId: u32, lo: nat) returns (txs: seq<Tx>)
    requires OnTier(s, who, tierId) && Headroom(s, who, TierOf(s, tierId), lo)
    ensures Clocked(txs, Now, lo) && Undisturbed(txs, who, tierId)
    ensures AcceptedIn(s, txs, who, lo, lo + WINDOW) == Potential(s, who, TierOf(s, tierId).maxDaily, lo)
  {
    var tier := TierOf(s, tierId);
    if Straddles(s, who, lo) {
      var room := Room(s.quotas[who], tier.maxDaily);
      UnitCostsAdd(tier, room, tier.maxDaily);
      txs := SpendBoth(s, who, tierId, lo, room, tier.maxDaily);
    } else {
      var n := Potential(s, who, tier.maxDaily, lo);
      txs := Units(who, lo, n);
      BurstsInOrder(txs, [], who, tierId, lo, lo);
      assert txs + [] == txs;
      if n > 0 {
        SpendAll(s, who, tierId, lo, n, lo);
      }
    }
  }

  /** A run from `lo` on that gets more than a day's maximum accepted within a day. */
  ghost predicate Exceeds(s: Ledger, txs: seq<Tx>, who: Address, tierId: u32, lo: nat) {
    && Clocked(txs, Now, lo) && Undisturbed(txs, who, tierId)
    && AcceptedIn(s, txs, who, lo, lo + WINDOW) > TierOf(s, tierId).maxDaily
  }

  /** A sliding day starting at `lo` can see more than the daily maximum if and only if a
      window opened before `lo` still runs at `lo` and is not used up. */
  lemma SlidingDayIff(s: Ledger, who: Address, tierId: u32, lo: nat)
    requires OnTier(s, who, tierId) && Headroom(s, who, TierOf(s, tierId), lo)
    ensures (exists txs :: Exceeds(s, txs, who, tierId, lo))
        <==> Straddles(s, who, lo) && s.quotas[who].used < TierOf(s, tierId).maxDaily
  {
    var run := PotentialAttained(s, who, tierId, lo);
    if Straddles(s, who, lo) && s.quotas[who].used < TierOf(s, tierId).maxDaily {
      assert Exceeds(s, run, who, tierId, lo);
    }
    forall txs | Exceeds(s, txs, who, tierId, lo)
      ensures Straddles(s, who, lo) && s.quotas[who].used < TierOf(s, tierId).maxDaily
    {
      PotentialBounds(s, txs, who, tierId, lo);
    }
  }

  /** The factor two is reached: the default tier accepts 200000 events within two seconds
      around a window boundary, so a day's quota is not a bound on a sliding day. */
  lemma IntervalBoundIsTight(who: Address)
    ensures var txs := [Tx(0, Use(who, 0)), Tx(86399, Use(who, 100_000)), Tx(86400, Use(who, 100_000))];
            && Clocked(txs, Now, 0) && Undisturbed(txs, who, 1)
            && AcceptedIn(Ledger(map[], map[]), txs, who, 86399, 86399 + WINDOW)
               == 2 * TierOf(Ledger(map[], map[]), 1).maxDaily
  {
    var s0 := Ledger(map[], map[]);
    var t0, t1, t2 := Tx(0, Use(who, 0)), Tx(86399, Use(who, 100_000)), Tx(86400, Use(who, 100_000));
    var s1 := Step(s0, t0);
    assert s1.quotas[who] == Quota(1, 0, 0, false, 0);
    var s2 := Step(s1, t1);
    assert s2.quotas[who] == Quota(1, 100_000, 0, false, 500_000);
    assert Accepted(s2, t2, who) == 100_000;
    assert [t0, t1, t2][1..] == [t1, t2] && [t1, t2][1..] == [t2] && [t2][1..] == [];
    var s3 := Step(s2, t2);
    assert AcceptedIn(s3, [], who, 86399, 86399 + WINDOW) == 0;
    assert AcceptedIn(s2, [t2], who, 86399, 86399 + WINDOW) == 100_000;
    assert AcceptedIn(s1, [t1, t2], who, 86399, 86399 + WINDOW) == 200_000;
  }

  /** One more floor division adds at most 999999 millionths of error. */
  lemma AddFloor(taken: nat, rest: nat, cost: nat, owed: int, calls: nat, counted: nat)
    requires 1_000_000 * owed <= rest * cost <= 1_000_000 * owed + 999_999 * calls
    requires counted == 0 ==> taken == 0
    ensures var total := taken * cost / 1_000_000 + owed;
            1_000_000 * total <= (taken + rest) * cost <= 1_000_000 * total + 999_999 * (counted + calls)
  {
    var x := taken * cost;
    assert (taken + rest) * cost == x + rest * cost;
    if taken == 0 {
      assert x == 0;
    }
    assert x == 1_000_000 * (x / 1_000_000) + x % 1_000_000;
  }

  lemma BillingStep(s: Ledger, tx: Tx, who: Address, tierId: u32)
    requires Undisturbed([tx], who, tierId) && OnTier(s, who, tierId)
    ensures var price := Price(TierOf(s, tierId), Accepted(s, tx, who));
            Billed(Step(s, tx), who) == Billed(s, who) + price / 1_000_000
    ensures Counted(s, tx, who) == 0 ==> Accepted(s, tx, who) == 0
  {
    assert tx in [tx];
  }

  /** Floor billing: over a whole run the bill never passes the exact price, and falls
      short of it by less than one stroop for every accepted call. */
  lemma {:induction false} BillingError(s: Ledger, txs: seq<Tx>, who: Address, tierId: u32)
    requires Undisturbed(txs, who, tierId) && OnTier(s, who, tierId)
    ensures var owed := Billed(Run(s, txs), who) - Billed(s, who);
            var price := AcceptedIn(s, txs, who, 0, U64_MAX + 1) * TierOf(s, tierId).costPerMillion;
            1_000_000 * owed <= price <= 1_000_000 * owed + 999_999 * AcceptedCalls(s, txs, who)
    decreases txs
  {
    if txs != [] {
      var tx := txs[0];
      assert tx in txs;
      StepKeepsTier(s, tx, who, tierId);
      BillingStep(s, tx, who, tierId);
      BillingError(Step(s, tx), txs[1..], who, tierId);
      var t := Step(s, tx);
      AddFloor(Accepted(s, tx, who), AcceptedIn(t, txs[1..], who, 0, U64_MAX + 1), TierOf(s, tierId).costPerMillion,
               Billed(Run(t, txs[1..]), who) - Billed(t, who), AcceptedCalls(t, txs[1..], who), Counted(s, tx, who));
    }
  }

  /** Exceeding the quota never leaves a trace: no reachable record is throttled. */
  lemma {:induction false} NeverThrottled(s: Ledger, txs: seq<Tx>)
    requires forall a <- s.quotas :: !s.quotas[a].throttled
    ensures forall a <- Run(s, txs).quotas :: !Run(s, txs).quotas[a].throttled
    decreases txs
  {
    if txs != [] {
      NeverThrottled(Step(s, txs[0]), txs[1..]);
    }
  }

  function RecordAll(t: Telemetry, ms: seq<Metric>): Telemetry
    decreases |ms|
  {
    if ms == [] then t
    else
      var u := RecordAll(t, ms[..|ms| - 1]);
      match Record(u, ms[|ms| - 1]) case Success(v) => v case Failure(_) => u
  }

  function Least(x: nat, y: nat): nat { if x <= y then x else y }

  /** After any number of calls the ring holds exactly the last 1000 accepted records,
      record k in slot k mod 1000; once the counter is full nothing is accepted. */
  lemma {:induction false} RingHoldsTail(ms: seq<Metric>)
    ensures var t := RecordAll(Telemetry(map[], 0), ms);
            var n := Least(|ms|, U32_MAX);
            && t.count == n
            && (forall i: u32 :: i in t.slots <==> i < Least(n, RING))
            && (forall k: u32 | n - RING <= k < n :: k % RING in t.slots && t.slots[k % RING] == ms[k])
  {
    if ms != [] {
      var last := |ms| - 1;
      RingHoldsTail(ms[..last]);
      var u := RecordAll(Telemetry(map[], 0), ms[..last]);
      if last < U32_MAX {
        var t := RecordAll(Telemetry(map[], 0), ms);
        assert t == Telemetry(u.slots[last % RING := ms[last]], last + 1);
        forall k: u32 | last + 1 - RING <= k < last + 1
          ensures k % RING in t.slots && t.slots[k % RING] == ms[k]
        {
          if k < last {
            DistinctSlots(k, last);
          }
        }
      }
    }
  }

  lemma DistinctSlots(k: nat, n: nat)
    requires k < n < k + RING
    ensures k % RING != n % RING
  {
  }
}
