/** The bonus cooldown: eligibility and the "wait Xh and Ym" arithmetic of
    the Bonus handler. Times are integer milliseconds. */
module Cooldown {
  import opened Options

  const MinuteMs: int := 60 * 1000
  const HourMs: int := 60 * MinuteMs
  const CooldownMs: int := 12 * HourMs

  /** A claim is accepted when there is no earlier claim or strictly more than
      twelve hours have passed since it. */
  predicate Eligible(last: Option<int>, now: int) {
    last.None? || now - last.value > CooldownMs
  }

  /** `Math.floor(a / b)` for a positive divisor: Dafny's division by a
      positive divisor already rounds down. */
  function FloorDiv(a: int, b: int): int
    requires b > 0
  {
    a / b
  }

  /** JavaScript's `%`, whose result takes the sign of the dividend. */
  function JsRem(a: int, b: int): int
    requires b > 0
  {
    if a >= 0 then a % b else -((-a) % b)
  }

  datatype Wait = Wait(hours: int, minutes: int)

  /** The milliseconds a wait of `w` spells out. */
  function Span(w: Wait): int {
    w.hours * HourMs + w.minutes * MinuteMs
  }

  /** The remaining wait reported for a rejected claim made `elapsed`
      milliseconds after the previous one: the time left, in whole hours and
      the whole minutes beyond them, both rounded down. */
  function Remaining(elapsed: int): (w: Wait)
    requires elapsed <= CooldownMs
    ensures 0 <= w.hours && 0 <= w.minutes < 60
    ensures Span(w) <= CooldownMs - elapsed < Span(w) + MinuteMs
    ensures 0 <= elapsed ==> w.hours <= 12 && (w.hours == 12 ==> w.minutes == 0)
    ensures elapsed == CooldownMs ==> w == Wait(0, 0)
  {
    var left := CooldownMs - elapsed;
    Wait(FloorDiv(left, HourMs), FloorDiv(JsRem(left, HourMs), MinuteMs))
  }

  /** The bounds of `Remaining` pin its result down: any hours/minutes pair
      with minutes below 60 whose span is within a minute below the time left
      is the one reported. */
  lemma RemainingIsUnique(elapsed: int, w: Wait)
    requires elapsed <= CooldownMs
    requires 0 <= w.minutes < 60
    requires Span(w) <= CooldownMs - elapsed < Span(w) + MinuteMs
    ensures Remaining(elapsed) == w
  {
  }
}
