/** The Mercado Pago client: the bounded retry loop around one HTTP request, and the conversion of
    centavos to floating-point currency units and back. */
module MercadoPago {
  import opened Domain

  // ----- Retries -----

  datatype HttpRequest = HttpRequest(verb: string, url: string, headers: map<string, seq<string>>, body: seq<int>)

  datatype HttpResponse = HttpResponse(status: int, body: seq<int>)

  /** What one attempt meets. */
  datatype Attempt = TransportError(reason: string) | Answer(response: HttpResponse)

  datatype Outcome =
    | Response(response: HttpResponse)
    | RateLimited(response: HttpResponse)
    | Unreachable(reason: string)
    | ContextDone
    | NotRebuilt

  const TOO_MANY_REQUESTS := 429

  predicate Retryable(a: Attempt) {
    a.TransportError? || a.response.status == TOO_MANY_REQUESTS
  }

  /** What is reported when the last attempt may not be retried. */
  function GaveUp(last: Attempt): Outcome
    requires Retryable(last)
  {
    match last
    case TransportError(reason) => Unreachable(reason)
    case Answer(response) => RateLimited(response)
  }

  function Pow2(n: nat): nat {
    if n == 0 then 1 else 2 * Pow2(n - 1)
  }

  /** Everything the environment decides: what each attempt meets, the random source behind the jitter,
      whether and after how long the context is done while waiting before an attempt, and whether the
      request can be rebuilt for an attempt. */
  datatype Network = Network(
    meets: nat -> Attempt, random: nat -> nat, done: nat -> Option<nat>, rebuilds: nat -> bool)

  /** rand.Int63n. */
  function Int63n(random: nat, n: nat): (r: nat)
    requires n > 0
    ensures r < n
  {
    random % n
  }

  /** The wait before attempt k: a delay that doubles with every retry, and jitter below half of it. */
  function WaitBefore(baseDelay: nat, random: nat -> nat, k: nat): nat
    requires baseDelay >= 2 && k > 0
  {
    DelayGrows(baseDelay, k - 1);
    var delay := baseDelay * Pow2(k - 1);
    delay + Int63n(random(k), delay / 2)
  }

  /** Every jitter below half the delay can come up. */
  lemma EveryJitterComesUp(baseDelay: nat, random: nat -> nat, k: nat, jitter: nat)
    requires baseDelay >= 2 && k > 0 && jitter < baseDelay * Pow2(k - 1) / 2 && random(k) == jitter
    ensures WaitBefore(baseDelay, random, k) == baseDelay * Pow2(k - 1) + jitter
  {
    hide Pow2;
  }

  function AllWaits(baseDelay: nat, random: nat -> nat, waits: nat): nat
    requires baseDelay >= 2
  {
    if waits == 0 then 0 else AllWaits(baseDelay, random, waits - 1) + WaitBefore(baseDelay, random, waits)
  }

  /** The waits before attempts 1 to n take from 2^n - 1 base delays to less than one and a half times that. */
  lemma {:induction false} WaitsBounded(baseDelay: nat, random: nat -> nat, n: nat)
    requires baseDelay >= 2
    ensures baseDelay * (Pow2(n) - 1) <= AllWaits(baseDelay, random, n)
    ensures 2 * AllWaits(baseDelay, random, n) <= 3 * (baseDelay * (Pow2(n) - 1))
    ensures n > 0 ==> 2 * AllWaits(baseDelay, random, n) < 3 * (baseDelay * (Pow2(n) - 1))
  {
    if n == 0 {
    } else {
      WaitsBounded(baseDelay, random, n - 1);
      DelayGrows(baseDelay, n - 1);
      hide Pow2;
    }
  }

  /** Up to maxRetries + 1 attempts with the same request, waiting a doubling delay plus less than half
      of it again before each retry. `waits` counts the waits begun and `slept` is the time spent in them,
      the last of which the context may cut short. */
  method DoWithRetry(maxRetries: nat, baseDelay: nat, original: HttpRequest, net: Network)
    returns (r: Outcome, sent: seq<HttpRequest>, waits: nat, slept: nat)
    requires baseDelay >= 2
    ensures waits <= maxRetries
    ensures |sent| == if r.ContextDone? || r.NotRebuilt? then waits else waits + 1
    ensures forall req <- sent :: req == original
    ensures forall k: nat :: k < waits ==>
              net.meets(k).TransportError? || net.meets(k).response.status == 429
    ensures forall k: nat :: k < |sent| ==> net.rebuilds(k) && (k > 0 ==> net.done(k).None?)
    ensures match r
            case Response(response) => net.meets(waits) == Answer(response) && response.status != 429
            case ContextDone => waits > 0 && net.done(waits).Some?
            case NotRebuilt => !net.rebuilds(waits) && (waits > 0 ==> net.done(waits).None?)
            case RateLimited(response) =>
              waits == maxRetries && net.meets(maxRetries) == Answer(response) && response.status == 429
            case Unreachable(reason) => waits == maxRetries && net.meets(maxRetries) == TransportError(reason)
    ensures if r.ContextDone? then waits > 0 && slept <= AllWaits(baseDelay, net.random, waits)
            else slept == AllWaits(baseDelay, net.random, waits)
    ensures !r.ContextDone? ==> baseDelay * (Pow2(waits) - 1) <= slept
    ensures 2 * slept <= 3 * (baseDelay * (Pow2(waits) - 1))
    ensures waits > 0 ==> 2 * slept < 3 * (baseDelay * (Pow2(waits) - 1))
  {
    hide AllWaits, Pow2, Int63n;
    sent, waits, slept := [], 0, 0;
    var last := TransportError("");
    var attempt := 0;
    NoWaits(baseDelay, net.random);
    while attempt <= maxRetries
      invariant attempt <= maxRetries + 1 && |sent| == attempt
      invariant waits == if attempt == 0 then 0 else attempt - 1
      invariant forall req <- sent :: req == original
      invariant forall k: nat :: k < attempt ==>
                  Retryable(net.meets(k)) && net.rebuilds(k) && (k > 0 ==> net.done(k).None?)
      invariant attempt > 0 ==> last == net.meets(attempt - 1)
      invariant slept == AllWaits(baseDelay, net.random, waits)
    {
      if attempt > 0 {
        var delay := baseDelay * Pow2(attempt - 1);
        DelayGrows(baseDelay, attempt - 1);
        var jitter := Int63n(net.random(attempt), delay / 2);
        waits := waits + 1;
        MoreWaits(baseDelay, net.random, waits);
        if net.done(attempt).Some? {
          var elapsed := net.done(attempt).value;
          slept := slept + if elapsed < delay + jitter then elapsed else delay + jitter;
          r := ContextDone;
          WaitsBounded(baseDelay, net.random, waits);
          return;
        }
        slept := slept + delay + jitter;
      }
      if !net.rebuilds(attempt) {
        r := NotRebuilt;
        WaitsBounded(baseDelay, net.random, waits);
        return;
      }
      sent := sent + [original];
      last := net.meets(attempt);
      if !Retryable(last) {
        r := Response(last.response);
        WaitsBounded(baseDelay, net.random, waits);
        return;
      }
      attempt := attempt + 1;
    }
    WaitsBounded(baseDelay, net.random, waits);
    r := GaveUp(last);
  }

  lemma NoWaits(baseDelay: nat, random: nat -> nat)
    requires baseDelay >= 2
    ensures AllWaits(baseDelay, random, 0) == 0
  {
  }

  lemma MoreWaits(baseDelay: nat, random: nat -> nat, waits: nat)
    requires baseDelay >= 2 && waits > 0
    ensures AllWaits(baseDelay, random, waits)
            == AllWaits(baseDelay, random, waits - 1) + WaitBefore(baseDelay, random, waits)
  {
  }

  lemma DelayGrows(base: nat, n: nat)
    requires base >= 2
    ensures base * Pow2(n) >= 2
    ensures base * (Pow2(n + 1) - 1) == base * (Pow2(n) - 1) + base * Pow2(n)
  {
    assert Pow2(n + 1) == 2 * Pow2(n);
    Positive(n);
    assert base * Pow2(n) >= base * 1;
  }

  lemma {:induction false} Positive(n: nat)
    ensures Pow2(n) >= 1
  {
    if n == 0 {
    } else {
      Positive(n - 1);
    }
  }

  // ----- Money -----

  /** The unit roundoff of binary64, 2 to the power -53. */
  const ROUNDOFF: real := 1.0 / 9007199254740992.0

  const LIMIT: int := 0x8_0000_0000_0000  // 2 to the power 51

  function Abs(x: real): real {
    if x < 0.0 then -x else x
  }

  /** Round to nearest as section 4.3.1 of IEEE 754-2019 bounds it: a relative error of at most the
      unit roundoff. */
  ghost predicate RoundsToNearest(fl: real -> real) {
    forall x: real :: Abs(fl(x) - x) <= ROUNDOFF * Abs(x)
  }

  /** math.Round: to the nearest integer, halves away from zero. */
  function Round(x: real): int {
    if x < 0.0 then -((0.5 - x).Floor) else (x + 0.5).Floor
  }

  /** float64(centavos) / 100.0; the conversion is exact in the range considered. */
  function CentavosToUnits(fl: real -> real, centavos: int): real {
    fl(centavos as real / 100.0)
  }

  /** int64(math.Round(units * 100)). */
  function UnitsToCentavos(fl: real -> real, units: real): int {
    Round(fl(units * 100.0))
  }

  lemma RoundIsNearest(x: real, n: int)
    requires Abs(x - n as real) < 0.5
    ensures Round(x) == n
  {
  }

  lemma TwoRoundings(c: real, q: real, p: real)
    requires Abs(q - c / 100.0) <= ROUNDOFF * Abs(c / 100.0)
    requires Abs(p - q * 100.0) <= ROUNDOFF * Abs(q * 100.0)
    ensures Abs(p - c) <= (2.0 * ROUNDOFF + ROUNDOFF * ROUNDOFF) * Abs(c)
  {
  }

  lemma SmallError(c: int)
    requires -LIMIT < c < LIMIT
    ensures (2.0 * ROUNDOFF + ROUNDOFF * ROUNDOFF) * Abs(c as real) < 0.5
  {
    var a := Abs(c as real);
    assert a <= LIMIT as real - 1.0;
    assert (2.0 * ROUNDOFF + ROUNDOFF * ROUNDOFF) * a <= (2.0 * ROUNDOFF + ROUNDOFF * ROUNDOFF) * (LIMIT as real - 1.0);
  }

  /** Below 2^51 centavos no amount is changed by the trip through floating point, however each
      operation rounds. */
  lemma CentavosRoundTrip(fl: real -> real, c: int)
    requires RoundsToNearest(fl) && -LIMIT < c < LIMIT
    ensures UnitsToCentavos(fl, CentavosToUnits(fl, c)) == c
    ensures Abs(CentavosToUnits(fl, c) - c as real / 100.0) <= ROUNDOFF * Abs(c as real / 100.0)
  {
    hide Round, Abs;
    var q := CentavosToUnits(fl, c);
    var p := fl(q * 100.0);
    TwoRoundings(c as real, q, p);
    SmallError(c);
    RoundIsNearest(p, c);
  }

  /** The bound is sharp: from relative error alone nothing more can be had, since one admissible
      rounding already turns 2^51 centavos into one centavo more. */
  lemma RoundTripBoundIsSharp() returns (fl: real -> real)
    ensures RoundsToNearest(fl)
    ensures UnitsToCentavos(fl, CentavosToUnits(fl, LIMIT)) == LIMIT + 1
  {
    fl := (x: real) => x * (1.0 + ROUNDOFF);
    forall x: real
      ensures Abs(fl(x) - x) <= ROUNDOFF * Abs(x)
    {
      assert fl(x) - x == x * ROUNDOFF;
    }
    var p := fl(fl(LIMIT as real / 100.0) * 100.0);
    assert p == LIMIT as real * (1.0 + ROUNDOFF) * (1.0 + ROUNDOFF);
    RoundIsNearest(p, LIMIT + 1);
  }
}
