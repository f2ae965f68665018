// Fixed-width arithmetic of the transport configuration: protobuf durations, keepalive
// and message sizes (rpc/grpc.go), and the metrics intervals (metrics/options.go).
module TransportParams {
  import opened Wrappers

  const MAX_INT32 := 0x7FFF_FFFF
  const MAX_INT64 := 0x7FFF_FFFF_FFFF_FFFF
  const SECOND := 1_000_000_000

  type int32 = x: int | -MAX_INT32 - 1 <= x <= MAX_INT32
  type int64 = x: int | -MAX_INT64 - 1 <= x <= MAX_INT64

  // The value a Go int32 or int64 holds after an operation with this exact result.
  function Wrap32(x: int): int32 {
    (x + 0x8000_0000) % 0x1_0000_0000 - 0x8000_0000
  }

  function Wrap64(x: int): int64 {
    (x + 0x8000_0000_0000_0000) % 0x1_0000_0000_0000_0000 - 0x8000_0000_0000_0000
  }

  // Go's integer division by a positive constant truncates toward zero.
  function Quotient(x: int, divisor: int): int
    requires divisor > 0
  {
    if x >= 0 then x / divisor else -(-x / divisor)
  }

  // ----- durations ------------------------------------------------------------------

  // google.protobuf.Duration
  datatype Duration = Duration(seconds: int64, nanos: int32) {
    function Exact(): int {
      seconds * SECOND + nanos
    }
  }

  lemma ExactInNanoseconds(d: Duration)
    ensures d.Exact() == d.seconds * 1_000_000_000 + d.nanos
  {
  }

  datatype DurationError = Required | Invalid | NotPositive | BelowMinimum

  datatype Result<T> = Ok(value: T) | Err(error: DurationError)

  // durationpb.Duration.CheckValid: the documented range and equal signs.
  predicate CheckValid(d: Duration) {
    && -315_576_000_000 <= d.seconds <= 315_576_000_000
    && -SECOND < d.nanos < SECOND
    && !(d.seconds > 0 && d.nanos < 0)
    && !(d.seconds < 0 && d.nanos > 0)
  }

  // durationpb.Duration.AsDuration, in wrapping 64-bit arithmetic.
  function AsDuration(d: Duration): int64 {
    var whole := Wrap64(d.seconds * SECOND);
    var total := Wrap64(whole + d.nanos);
    var overflow :=
      || Quotient(whole, SECOND) != d.seconds
      || (d.seconds < 0 && d.nanos < 0 && total > 0)
      || (d.seconds > 0 && d.nanos > 0 && total < 0);
    if overflow && d.seconds < 0 then -MAX_INT64 - 1
    else if overflow && d.seconds > 0 then MAX_INT64
    else total
  }

  function Clamp64(x: int): int64 {
    if x > MAX_INT64 then MAX_INT64 else if x < -MAX_INT64 - 1 then -MAX_INT64 - 1 else x
  }

  lemma ClampInNumbers(x: int)
    ensures Clamp64(x) == if x > 9_223_372_036_854_775_807 then 9_223_372_036_854_775_807
                          else if x < -9_223_372_036_854_775_808 then -9_223_372_036_854_775_808
                          else x
  {
  }

  lemma WrapOfInt64(x: int)
    requires -MAX_INT64 - 1 <= x <= MAX_INT64
    ensures Wrap64(x) == x
  {
  }

  lemma WrapJustOutside(x: int)
    requires -0x1_0000_0000_0000_0000 <= x < 0x1_0000_0000_0000_0000
    ensures x > MAX_INT64 ==> Wrap64(x) == x - 0x1_0000_0000_0000_0000
    ensures x < -MAX_INT64 - 1 ==> Wrap64(x) == x + 0x1_0000_0000_0000_0000
  {
  }

  /** For valid durations, and for all others whose parts agree in sign, the overflow
      tests find every wrap-around: the result is the exact number of nanoseconds clamped
      to 64 bits. */
  lemma AsDurationClamps(d: Duration)
    requires !(d.seconds > 0 && d.nanos < 0) && !(d.seconds < 0 && d.nanos > 0)
    ensures AsDuration(d) == Clamp64(d.Exact())
    ensures -9_223_372_036_854_775_808 <= d.seconds * 1_000_000_000 + d.nanos <= 9_223_372_036_854_775_807 ==>
              AsDuration(d) == d.seconds * 1_000_000_000 + d.nanos
  {
    if -9_223_372_036 <= d.seconds <= 9_223_372_036 {
      WrapOfInt64(d.seconds * SECOND);
      WrapJustOutside(d.Exact());
      if -MAX_INT64 - 1 <= d.Exact() <= MAX_INT64 {
        WrapOfInt64(d.Exact());
      }
    } else {
      // The quotient of a 64-bit number never reaches these seconds.
      var whole := Wrap64(d.seconds * SECOND);
      assert -9_223_372_036 <= Quotient(whole, SECOND) <= 9_223_372_036;
    }
  }

  // positiveDuration
  function PositiveDuration(value: Option<Duration>): Result<int64> {
    match value
    case None => Err(Required)
    case Some(d) =>
      if !CheckValid(d) then Err(Invalid)
      else if AsDuration(d) <= 0 then Err(NotPositive)
      else Ok(AsDuration(d))
  }

  /** Success means present, in range, with agreeing signs and positive, in unbounded
      arithmetic; the value is the exact one up to the largest 64-bit duration. */
  lemma PositiveDurationIsExact(value: Option<Duration>)
    ensures PositiveDuration(value).Ok? <==> value.Some? && CheckValid(value.value) && value.value.Exact() > 0
    ensures PositiveDuration(value).Ok? ==> PositiveDuration(value).value == Clamp64(value.value.Exact()) > 0
    ensures PositiveDuration(value) == Err(Required) <==> value.None?
    ensures PositiveDuration(value) == Err(Invalid) <==> value.Some? && !CheckValid(value.value)
    // In numbers: the range of google.protobuf.Duration, and equal signs.
    ensures PositiveDuration(value).Ok? <==>
              && value.Some? && 0 <= value.value.seconds <= 315_576_000_000 && 0 <= value.value.nanos < 1_000_000_000
              && value.value.seconds * 1_000_000_000 + value.value.nanos > 0
    ensures PositiveDuration(value).Ok? ==>
              var exact := value.value.seconds * 1_000_000_000 + value.value.nanos;
              PositiveDuration(value).value
              == if exact <= 9_223_372_036_854_775_807 then exact else 9_223_372_036_854_775_807
    ensures PositiveDuration(value) == Err(NotPositive) <==>
              && value.Some? && -315_576_000_000 <= value.value.seconds <= 0
              && -1_000_000_000 < value.value.nanos <= 0
  {
    if value.Some? && CheckValid(value.value) {
      AsDurationClamps(value.value);
    }
  }

  // ----- keepalive ----------------------------------------------------------------------

  datatype ClientKeepalive = ClientKeepalive(
    enable: bool, time: Option<Duration>, timeout: Option<Duration>, permitWithoutStream: bool)
  datatype ClientParameters = ClientParameters(time: int64, timeout: int64, permitWithoutStream: bool)

  const MINIMUM_CLIENT_KEEPALIVE_TIME := 10 * SECOND

  // clientKeepaliveParameters; no parameters means that the option is not used.
  function ClientKeepaliveParameters(cfg: Option<ClientKeepalive>): Result<Option<ClientParameters>> {
    if cfg.None? || !cfg.value.enable then Ok(None)
    else
      match PositiveDuration(cfg.value.time)
      case Err(e) => Err(e)
      case Ok(time) =>
        if time < MINIMUM_CLIENT_KEEPALIVE_TIME then Err(BelowMinimum)
        else
          match PositiveDuration(cfg.value.timeout)
          case Err(e) => Err(e)
          case Ok(timeout) => Ok(Some(ClientParameters(time, timeout, cfg.value.permitWithoutStream)))
  }

  // Present, valid and at least so many nanoseconds, in unbounded arithmetic.
  predicate AtLeast(d: Option<Duration>, nanos: int) {
    d.Some? && CheckValid(d.value) && d.value.Exact() >= nanos
  }

  lemma AtLeastInNumbers(d: Option<Duration>, nanos: int)
    requires nanos > 0
    ensures AtLeast(d, nanos) <==>
              && d.Some? && 0 <= d.value.seconds <= 315_576_000_000 && 0 <= d.value.nanos < 1_000_000_000
              && d.value.seconds * 1_000_000_000 + d.value.nanos >= nanos
  {
  }

  /** A client is configured for keepalive exactly when it is enabled with a valid time of
      at least ten seconds and a valid positive timeout, both measured without overflow;
      saturation never lets a short time pass nor rejects a long one. An enabled but
      unacceptable configuration is an error, never a silent "off", and the time is
      complained about before the timeout. */
  lemma ClientKeepaliveIsExact(cfg: Option<ClientKeepalive>)
    ensures var r := ClientKeepaliveParameters(cfg);
            && (r == Ok(None) <==> cfg.None? || !cfg.value.enable)
            && (cfg.Some? && cfg.value.enable ==>
                  && (r.Ok? <==> AtLeast(cfg.value.time, 10_000_000_000) && AtLeast(cfg.value.timeout, 1))
                  && (r.Ok? ==> r.value == Some(ClientParameters(
                        Clamp64(cfg.value.time.value.Exact()), Clamp64(cfg.value.timeout.value.Exact()),
                        cfg.value.permitWithoutStream)))
                  && (r == Err(BelowMinimum) <==> AtLeast(cfg.value.time, 1) && !AtLeast(cfg.value.time, 10 * SECOND))
                  && (r == Err(Required) <==>
                        cfg.value.time.None? || (AtLeast(cfg.value.time, 10 * SECOND) && cfg.value.timeout.None?)))
  {
    if cfg.Some? {
      PositiveDurationIsExact(cfg.value.time);
      PositiveDurationIsExact(cfg.value.timeout);
    }
  }

  datatype EnforcementConfig = EnforcementConfig(enable: bool, minTime: Option<Duration>, permitWithoutStream: bool)
  datatype EnforcementPolicy = EnforcementPolicy(minTime: int64, permitWithoutStream: bool)

  // serverKeepaliveEnforcementPolicy
  function ServerKeepalivePolicy(cfg: Option<EnforcementConfig>): Result<Option<EnforcementPolicy>> {
    if cfg.None? || !cfg.value.enable then Ok(None)
    else
      match PositiveDuration(cfg.value.minTime)
      case Err(e) => Err(e)
      case Ok(minTime) => Ok(Some(EnforcementPolicy(minTime, cfg.value.permitWithoutStream)))
  }

  /** The server side likewise; and the README's rule for the two ends carries over to the
      parameters in force: a client whose exact time is no less than the server's exact
      minimum is configured with a time that respects the policy. */
  lemma ServerPolicyIsExact(server: Option<EnforcementConfig>, client: Option<ClientKeepalive>)
    ensures var policy, parameters := ServerKeepalivePolicy(server), ClientKeepaliveParameters(client);
            && (policy == Ok(None) <==> server.None? || !server.value.enable)
            && (server.Some? && server.value.enable ==>
                  && (policy.Ok? <==> AtLeast(server.value.minTime, 1))
                  && (policy.Ok? ==> policy.value == Some(EnforcementPolicy(
                        Clamp64(server.value.minTime.value.Exact()), server.value.permitWithoutStream)))
                  && (policy == Err(Required) <==> server.value.minTime.None?)
                  && (policy == Err(Invalid) <==>
                        server.value.minTime.Some? && !CheckValid(server.value.minTime.value))
                  && (policy.Err? ==> policy.error in {Required, Invalid, NotPositive}))
            && (policy.Ok? && policy.value.Some? && parameters.Ok? && parameters.value.Some? ==>
                  client.value.time.value.Exact() >= server.value.minTime.value.Exact() ==>
                    parameters.value.value.time >= policy.value.value.minTime)
  {
    if server.Some? {
      PositiveDurationIsExact(server.value.minTime);
    }
    if client.Some? {
      PositiveDurationIsExact(client.value.time);
      PositiveDurationIsExact(client.value.timeout);
    }
  }

  // ----- message sizes ---------------------------------------------------------------------

  const DEFAULT_MSG_SIZE := 16 * 1024 * 1024

  // int(cfg.MaxMsgSize * 1024 * 1024), multiplied in 32 bits
  function MessageSize(maxMsgSize: int32): int {
    if maxMsgSize > 0 then Wrap32(Wrap32(maxMsgSize * 1024) * 1024) else DEFAULT_MSG_SIZE
  }

  /** Without a size, or with a negative one, the limit is 16 MB. */
  lemma MessageSizeIsSixteenByDefault(m: int32)
    requires m <= 0
    ensures MessageSize(m) == 16_777_216
  {
  }

  lemma WrapTwice(m: int)
    ensures Wrap32(Wrap32(m * 1024) * 1024) == Wrap32(m * 0x10_0000)
  {
    var q := (m * 1024 + 0x8000_0000) / 0x1_0000_0000;
    assert Wrap32(m * 1024) == m * 1024 - q * 0x1_0000_0000;
    WrapIsPeriodic(m * 0x10_0000, -q * 1024);
  }

  lemma WrapIsPeriodic(x: int, k: int)
    ensures Wrap32(x + k * 0x1_0000_0000) == Wrap32(x)
  {
    var a, n := x + 0x8000_0000, 0x1_0000_0000;
    var q := a / n;
    assert a + k * n == (q + k) * n + a % n;
    EuclideanRemainder(a + k * n, n, q + k, a % n);
  }

  lemma EuclideanRemainder(a: int, n: int, q: int, r: int)
    requires n > 0 && a == q * n + r && 0 <= r < n
    ensures a % n == r
  {
    var d := a / n - q;
    assert d >= 1 ==> d * n >= n;
    assert d <= -1 ==> d * n <= -n;
    assert d * n == r - a % n;
  }

  // A positive size keeps its residue modulo 4096 MB, as a signed number.
  lemma MessageSizeIsAResidue(m: int32)
    requires m > 0
    ensures MessageSize(m) == (if m % 4096 < 2048 then m % 4096 else m % 4096 - 4096) * 0x10_0000
  {
    WrapTwice(m);
    var q := m / 4096;
    assert m * 0x10_0000 == (m % 4096) * 0x10_0000 + q * 0x1_0000_0000;
    WrapIsPeriodic((m % 4096) * 0x10_0000, q);
  }

  /** A size in MB is honoured exactly up to 2047. From 2048 on, the limit in force is
      never the requested one but what is left of it in 32 bits: negative in the upper
      half of every 4096 MB, zero on its multiples. */
  lemma MessageSizeIsHonouredUpTo2047(m: int32)
    requires m > 0
    ensures MessageSize(m) == m * 0x10_0000 <==> m <= 2047
    ensures MessageSize(m) == 0 <==> m % 4096 == 0
    ensures MessageSize(m) < 0 <==> m % 4096 >= 2048
  {
    MessageSizeIsAResidue(m);
  }

  lemma MessageSizeFailsAt2048And4096()
    ensures MessageSize(2048) == -0x8000_0000 && MessageSize(4096) == 0
  {
    MessageSizeIsHonouredUpTo2047(2048);
    MessageSizeIsHonouredUpTo2047(4096);
  }

  // time.Duration(seconds) * time.Second for a configured number of seconds
  function IntervalNanos(seconds: int32): int64 {
    Wrap64(seconds * SECOND)
  }

  /** The metrics intervals are converted before they are multiplied, so none of them
      overflows. */
  lemma IntervalNeverOverflows(seconds: int32)
    ensures IntervalNanos(seconds) == seconds * SECOND == seconds * 1_000_000_000
  {
    WrapOfInt64(seconds * SECOND);
  }
}
