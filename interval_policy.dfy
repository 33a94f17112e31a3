/**
 * The two ways the bridge turns the cloud's `state/Interval` value (seconds,
 * already through `parseFloat`) into a sampling period in milliseconds: the
 * change listener and the initial sync after connecting.
 */
module IntervalPolicy {
  import opened JsNumber

  /** The shortest and longest sampling periods, in milliseconds. */
  const MinPeriod: Decimal := Whole(1000)
  const MaxPeriod: Decimal := Whole(10000)

  /**
   * The change listener as written: seconds become milliseconds first, then
   * the two bound checks run. Neither check holds for NaN, so NaN comes out
   * unchanged; every other input comes out finite and inside [1000, 10000].
   */
  function ListenerPeriodAsWritten(seconds: Number): (ms: Number)
    ensures ms == NaN <==> seconds == NaN
    ensures ms != NaN ==> ms.Finite? && 1000.0 <= Value(ms.d) <= 10000.0
  {
    var ms := Times1000(seconds);
    var atLeast := if LessThan(ms, 1000.0) then Finite(MinPeriod) else ms;
    if GreaterThan(atLeast, 10000.0) then Finite(MaxPeriod) else atLeast
  }

  /**
   * NaN (what `parseFloat` makes of a missing or non-numeric Interval) is
   * stored, sent and used as the timer period unchanged.
   */
  lemma ListenerAsWrittenPassesNaN()
    ensures ListenerPeriodAsWritten(NaN) == NaN
  {
  }

  /**
   * The change listener with the bound it evidently intends: NaN falls to
   * the lower bound like every other value below it. Inside the range the
   * period is exactly 1000 times the seconds, and for every input but NaN it
   * agrees with the code as written.
   */
  function ListenerPeriod(seconds: Number): (ms: Decimal)
    ensures 1000.0 <= Value(ms) <= 10000.0
    ensures seconds.Finite? && 1.0 <= Value(seconds.d) <= 10.0 ==> ms == Thousandfold(seconds.d)
    ensures seconds != NaN ==> ListenerPeriodAsWritten(seconds) == Finite(ms)
    ensures seconds == NaN ==> ms == MinPeriod
  {
    match ListenerPeriodAsWritten(seconds)
    case Finite(d) => d
    case _ => MinPeriod
  }

  /**
   * The initial sync's seconds: `parseFloat(v) || 1` (NaN and zero become 1),
   * then clamped to [1, 10].
   */
  function InitialSeconds(seconds: Number): (s: Decimal)
    ensures 1.0 <= Value(s) <= 10.0
    ensures !Truthy(seconds) ==> s == Whole(1)
    ensures seconds.Finite? && 1.0 <= Value(seconds.d) <= 10.0 ==> s == seconds.d
    ensures LessThan(seconds, 1.0) ==> s == Whole(1)
    ensures GreaterThan(seconds, 10.0) ==> s == Whole(10)
  {
    var fallback := if Truthy(seconds) then seconds else Finite(Whole(1));
    var atLeast := if LessThan(fallback, 1.0) then Finite(Whole(1)) else fallback;
    var atMost := if GreaterThan(atLeast, 10.0) then Finite(Whole(10)) else atLeast;
    match atMost
    case Finite(d) => d
    case _ => assert false; Whole(1)
  }

  /** The initial sync's period: the clamped seconds times 1000. */
  function InitialPeriod(seconds: Number): (ms: Decimal)
    ensures 1000.0 <= Value(ms) <= 10000.0
    ensures Value(ms) == 1000.0 * Value(InitialSeconds(seconds))
    ensures !Truthy(seconds) ==> Value(ms) == 1000.0
  {
    Thousandfold(InitialSeconds(seconds))
  }

  /**
   * The two paths clamp in different units and in a different order, yet
   * give the same period for every input once the listener's NaN case is
   * corrected.
   */
  lemma PathsAgree(seconds: Number)
    ensures Value(ListenerPeriod(seconds)) == Value(InitialPeriod(seconds))
  {
    match seconds
    case Finite(d) =>
      if !Truthy(seconds) {
        assert Value(d) == 0.0;
      }
    case _ =>
  }
}
