/** Fixed-point currency conversion along a settlement path. */
module CbdcInterop {
  import opened Common

  const SCALE: u128 := 1_000_000_000_000_000_000

  datatype Error = ZeroRate | ZeroAmount | ConversionOverflow | PathTooShort | LengthMismatch

  function ConvertAmount(amount: u128, rate: u128): Result<u128, Error> {
    if rate == 0 then Failure(ZeroRate)
    else if amount == 0 then Failure(ZeroAmount)
    else if amount * rate > U128_MAX then Failure(ConversionOverflow)
    else
      assert amount * rate / SCALE <= U128_MAX;
      Success(amount * rate / SCALE)
  }

  function Chain(amount: u128, rates: seq<u128>): Result<u128, Error>
    decreases rates
  {
    if rates == [] then Success(amount)
    else
      match ConvertAmount(amount, rates[0])
      case Success(next) => Chain(next, rates[1..])
      case Failure(e) => Failure(e)
  }

  datatype SettlementPath = SettlementPath(path: seq<byte>, rates: seq<u128>, totalCostBps: u32) {

    /** One rate for every pilot on the path, the first included. */
    method ComputeFinalAmount(initial: u128) returns (final: Result<u128, Error>)
      ensures |path| < 2 ==> final == Failure(PathTooShort)
      ensures |path| >= 2 && |path| != |rates| ==> final == Failure(LengthMismatch)
      ensures |path| == |rates| >= 2 ==> final == Chain(initial, rates)
    {
      if |path| < 2 {
        return Failure(PathTooShort);
      }
      if |path| != |rates| {
        return Failure(LengthMismatch);
      }
      var amount := initial;
      for i := 0 to |rates|
        invariant Chain(initial, rates) == Chain(amount, rates[i..])
      {
        assert rates[i..][1..] == rates[i + 1..];
        var next := ConvertAmount(amount, rates[i]);
        if next.Failure? {
          return Failure(next.error);
        }
        amount := next.value;
      }
      final := Success(amount);
    }
  }

  function Product(rates: seq<nat>): nat {
    if rates == [] then 1 else rates[0] * Product(rates[1..])
  }

  function Power(k: nat): nat {
    if k == 0 then 1 else SCALE * Power(k - 1)
  }

  /** The most that rounding down after every hop can lose, at the scale of SCALE^k. */
  function Slack(rates: seq<nat>): nat {
    if rates == [] then 0
    else (SCALE - 1) * Product(rates[1..]) + SCALE * Slack(rates[1..])
  }

  lemma DivBound(x: nat)
    ensures SCALE * (x / SCALE) <= x <= SCALE * (x / SCALE) + (SCALE - 1)
  {
  }

  lemma MulMono(a: nat, b: nat, c: nat)
    requires a <= b
    ensures a * c <= b * c
  {
  }

  /** Error bound of one more hop in front of a chain whose own error is known. */
  lemma AddHop(a: nat, r: nat, next: nat, f: nat, pow: nat, prod: nat, slack: nat)
    requires SCALE * next <= a * r <= SCALE * next + (SCALE - 1)
    requires f * pow <= next * prod <= f * pow + slack
    ensures f * (SCALE * pow) <= a * (r * prod) <= f * (SCALE * pow) + ((SCALE - 1) * prod + SCALE * slack)
  {
    var exact := a * r * prod;
    assert exact == a * (r * prod);
    var fp, np := f * pow, next * prod;
    assert f * (SCALE * pow) == SCALE * fp;
    MulMono(SCALE * next, a * r, prod);
    MulMono(a * r, SCALE * next + (SCALE - 1), prod);
    assert (SCALE * next) * prod == SCALE * np;
    assert (SCALE * next + (SCALE - 1)) * prod == SCALE * np + (SCALE - 1) * prod;
  }

  /** Multi-hop error bound: the settled amount never exceeds the exact product of the
      rates, and falls short of it by no more than `Slack`. */
  lemma {:induction false} ChainError(amount: u128, rates: seq<u128>)
    requires Chain(amount, rates).Success?
    ensures var f := Chain(amount, rates).value;
            f * Power(|rates|) <= amount * Product(rates) <= f * Power(|rates|) + Slack(rates)
    decreases rates
  {
    if rates != [] {
      var next := ConvertAmount(amount, rates[0]).value;
      DivBound(amount * rates[0]);
      ChainError(next, rates[1..]);
      AddHop(amount, rates[0], next, Chain(amount, rates).value, Power(|rates| - 1), Product(rates[1..]), Slack(rates[1..]));
    }
  }

  /** The slack is below the sum over the hops i of SCALE^i times the later rates. */
  function RateSum(rates: seq<nat>, done: nat): nat {
    if rates == [] then 0 else Power(done + 1) * Product(rates[1..]) + RateSum(rates[1..], done + 1)
  }

  lemma {:induction false} RateSumShift(rates: seq<nat>, done: nat)
    ensures RateSum(rates, done + 1) == SCALE * RateSum(rates, done)
    decreases rates
  {
    if rates != [] {
      RateSumShift(rates[1..], done + 1);
      var p := Power(done + 1);
      var q := Product(rates[1..]);
      assert (SCALE * p) * q == SCALE * (p * q);
    }
  }

  lemma {:induction false} SlackBelowRateSum(rates: seq<u128>)
    requires rates != [] && forall r <- rates :: r > 0
    ensures Slack(rates) < RateSum(rates, 0)
    decreases rates
  {
    var rest := rates[1..];
    assert forall r <- rest :: r in rates;
    ProductPositive(rest);
    assert Power(1) == SCALE * Power(0) == SCALE;
    if rest != [] {
      SlackBelowRateSum(rest);
      RateSumShift(rest, 0);
    } else {
      assert RateSum(rest, 1) == 0 && Slack(rest) == 0;
    }
  }

  lemma {:induction false} ProductPositive(rates: seq<u128>)
    requires forall r <- rates :: r > 0
    ensures Product(rates) > 0
    decreases rates
  {
    if rates != [] {
      assert rates[0] in rates && forall r <- rates[1..] :: r in rates;
      ProductPositive(rates[1..]);
      MulPositive(rates[0], Product(rates[1..]));
    }
  }

  lemma MulPositive(a: nat, b: nat)
    requires a > 0 && b > 0
    ensures a * b > 0
  {
  }

  lemma {:induction false} SuccessMeansPositive(amount: u128, rates: seq<u128>)
    requires Chain(amount, rates).Success?
    ensures forall r <- rates :: r > 0
    decreases rates
  {
    if rates != [] {
      SuccessMeansPositive(ConvertAmount(amount, rates[0]).value, rates[1..]);
      assert forall r <- rates :: r == rates[0] || r in rates[1..];
    }
  }

  /** The bound as a strict inequality: F * SCALE^k <= a * r1 * ... * rk
      < F * SCALE^k + sum over i of SCALE^i * r(i+1) * ... * rk. */
  lemma StrictError(amount: u128, rates: seq<u128>)
    requires rates != [] && Chain(amount, rates).Success?
    ensures var f := Chain(amount, rates).value;
            f * Power(|rates|) <= amount * Product(rates) < f * Power(|rates|) + RateSum(rates, 0)
  {
    ChainError(amount, rates);
    SuccessMeansPositive(amount, rates);
    SlackBelowRateSum(rates);
  }

  lemma DivMono(x: nat, y: nat)
    requires x <= y
    ensures x / SCALE <= y / SCALE
  {
  }

  /** A larger amount never settles to less. */
  lemma {:induction false} ChainMonotone(a: u128, b: u128, rates: seq<u128>)
    requires a <= b && Chain(a, rates).Success? && Chain(b, rates).Success?
    ensures Chain(a, rates).value <= Chain(b, rates).value
    decreases rates
  {
    if rates != [] {
      MulMono(a, b, rates[0]);
      DivMono(a * rates[0], b * rates[0]);
      ChainMonotone(ConvertAmount(a, rates[0]).value, ConvertAmount(b, rates[0]).value, rates[1..]);
    }
  }

  lemma DivSuper(x: nat, y: nat)
    ensures x / SCALE + y / SCALE <= (x + y) / SCALE
  {
  }

  /** Splitting a payment never gains: two parts settle to at most their sum. */
  lemma {:induction false} SplittingNeverGains(a: u128, b: u128, whole: u128, rates: seq<u128>)
    requires a + b <= whole
    requires Chain(a, rates).Success? && Chain(b, rates).Success? && Chain(whole, rates).Success?
    ensures Chain(a, rates).value + Chain(b, rates).value <= Chain(whole, rates).value
    decreases rates
  {
    if rates != [] {
      var r := rates[0];
      DivSuper(a * r, b * r);
      assert a * r + b * r == (a + b) * r;
      MulMono(a + b, whole, r);
      DivMono(a * r + b * r, whole * r);
      SplittingNeverGains(ConvertAmount(a, r).value, ConvertAmount(b, r).value, ConvertAmount(whole, r).value, rates[1..]);
    }
  }

  predicate Rejects(amount: u128, rate: u128) {
    rate == 0 || amount == 0 || amount * rate > U128_MAX
  }

  /** Hop `k` is reached with an amount it rejects. */
  predicate StuckAt(amount: u128, rates: seq<u128>, k: nat) {
    k < |rates| && Chain(amount, rates[..k]).Success? && Rejects(Chain(amount, rates[..k]).value, rates[k])
  }

  lemma {:induction false} ChainAppend(amount: u128, p: seq<u128>, q: seq<u128>)
    ensures Chain(amount, p + q) == match Chain(amount, p)
                                    case Success(mid) => Chain(mid, q)
                                    case Failure(e) => Failure(e)
    decreases p
  {
    if p == [] {
      assert p + q == q;
    } else {
      assert (p + q)[1..] == p[1..] + q;
      if ConvertAmount(amount, p[0]).Success? {
        ChainAppend(ConvertAmount(amount, p[0]).value, p[1..], q);
      }
    }
  }

  lemma {:induction false} FindStuck(amount: u128, rates: seq<u128>) returns (k: nat)
    requires Chain(amount, rates).Failure?
    ensures StuckAt(amount, rates, k)
    decreases rates
  {
    if Rejects(amount, rates[0]) {
      return 0;
    }
    var next := ConvertAmount(amount, rates[0]).value;
    var j := FindStuck(next, rates[1..]);
    k := j + 1;
    assert rates[..k][1..] == rates[1..][..j];
  }

  /** A settlement fails exactly when some hop is reached with an amount it rejects:
      a zero rate, a zero amount, or a product wider than 128 bits. */
  lemma ChainFailsIff(amount: u128, rates: seq<u128>)
    ensures Chain(amount, rates).Failure? <==> exists k: nat :: StuckAt(amount, rates, k)
  {
    if Chain(amount, rates).Failure? {
      var k := FindStuck(amount, rates);
    }
    forall k: nat | StuckAt(amount, rates, k) ensures Chain(amount, rates).Failure? {
      assert rates == rates[..k] + rates[k..];
      ChainAppend(amount, rates[..k], rates[k..]);
    }
  }
}
