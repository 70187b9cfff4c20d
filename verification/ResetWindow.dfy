/** How long a provider stays unavailable, from reset windows that may be missing, contradictory or absurd. */
module ResetWindow {
  import opened Basics

  const MAX_RESET: int := 31 * 24 * 60 * 60
  const UNKNOWN_RESET: int := 60 * 60
  const SAFETY: int := 1
  const TOLERANCE: real := 5.0

  /** Retry metadata as it is emitted and stored. */
  datatype Retry = Retry(after: int, until: int, resetsAt: int, reportedIn: int, consistent: bool, clamped: bool)

  function Ceil(x: real): (n: int)
    ensures (n - 1) as real < x <= n as real
  {
    if x.Floor as real == x then x.Floor else x.Floor + 1
  }

  function Min(a: int, b: int): int { if a < b then a else b }
  function Max(a: int, b: int): int { if a < b then b else a }
  function MaxReal(a: real, b: real): real { if a < b then b else a }

  /** A usable number is finite and not negative; infinities and other payloads are `None`. */
  function Usable(x: Option<real>): Option<real> {
    if x.Some? && x.value >= 0.0 then x else None
  }

  /** The delay the provider asked for: the later of its two windows, an hour if it gave none. */
  function RawDelay(reportedIn: Option<real>, reportedAt: Option<real>, now: real): real {
    var left := if reportedAt.Some? then Some(MaxReal(0.0, reportedAt.value - now)) else None;
    if reportedIn.Some? && left.Some? then MaxReal(reportedIn.value, left.value)
    else if reportedIn.Some? then reportedIn.value
    else if left.Some? then left.value
    else UNKNOWN_RESET as real
  }

  function Extract(resetsIn: Option<real>, resetsAt: Option<real>, now: real): Retry {
    var within, at := Usable(resetsIn), Usable(resetsAt);
    var raw := RawDelay(within, at, now);
    var after := Min(MAX_RESET, Max(1, Ceil(raw) + SAFETY));
    var gap := if within.Some? && at.Some? then within.value - MaxReal(0.0, at.value - now) else 0.0;
    Retry(
      after,
      Ceil(now + after as real),
      if at.Some? && at.value <= now + MAX_RESET as real then Ceil(at.value) else 0,
      if within.None? then 0 else if within.value <= MAX_RESET as real then Ceil(within.value) else MAX_RESET,
      (within.Some? || at.Some?) && -TOLERANCE <= gap <= TOLERANCE,
      (within.None? && at.None?) || raw + SAFETY as real > MAX_RESET as real)
  }

  /** Re-read stored metadata at a later clock; the absolute time is the authority, the delay is never used to extend it. */
  function Normalize(v: Retry, now: real): Option<Retry> {
    if v.after < 0 || v.until <= 0 || v.until > Ceil(now + MAX_RESET as real) then None
    else Some(v.(
      after := Min(MAX_RESET, Max(1, v.after)),
      resetsAt := if v.resetsAt < 0 then 0 else v.resetsAt,
      reportedIn := if v.reportedIn < 0 then 0 else Min(MAX_RESET, v.reportedIn)))
  }

  // ---------------------------------------------------------------- laws

  lemma CeilMonotone(x: real, y: real)
    requires x <= y
    ensures Ceil(x) <= Ceil(y)
  {
  }

  lemma CeilBelow(x: real, n: int)
    ensures Ceil(x) <= n <==> x <= n as real
  {
  }

  /** The delay is between one second and 31 days, whatever the provider says. */
  lemma DelayIsBounded(resetsIn: Option<real>, resetsAt: Option<real>, now: real)
    ensures 1 <= Extract(resetsIn, resetsAt, now).after <= MAX_RESET
  {
  }

  /** Unless the cap binds, nobody retries before either reported reset. */
  lemma NeverEarly(resetsIn: Option<real>, resetsAt: Option<real>, now: real)
    requires !Extract(resetsIn, resetsAt, now).clamped
    ensures Usable(resetsIn).Some? ==> Extract(resetsIn, resetsAt, now).until as real >= now + resetsIn.value
    ensures Usable(resetsAt).Some? ==> Extract(resetsIn, resetsAt, now).until as real >= resetsAt.value
  {
    var raw := RawDelay(Usable(resetsIn), Usable(resetsAt), now);
    CeilBelow(raw, MAX_RESET - SAFETY);
  }

  /** When some window was reported, the result is flagged as clamped exactly when the cap cuts the delay. */
  lemma ClampedExactlyWhenTheCapBinds(resetsIn: Option<real>, resetsAt: Option<real>, now: real)
    requires Usable(resetsIn).Some? || Usable(resetsAt).Some?
    ensures var raw := RawDelay(Usable(resetsIn), Usable(resetsAt), now);
      Extract(resetsIn, resetsAt, now).clamped <==> Ceil(raw) + SAFETY > MAX_RESET
  {
    CeilBelow(RawDelay(Usable(resetsIn), Usable(resetsAt), now), MAX_RESET - SAFETY);
  }

  /** `n` is the least whole number not below `x`. */
  predicate RoundsUp(n: int, x: real) {
    (n - 1) as real < x <= n as real
  }

  /** `after` is one second more than the whole seconds it takes to pass both windows; an hour and one without any. */
  predicate WaitsFor(after: int, within: Option<real>, at: Option<real>, now: real) {
    var wait := (after - 1) as real;
    if within.None? && at.None? then after == 3601
    else
      && after >= 1
      && (within.Some? ==> wait >= within.value)
      && (at.Some? ==> now + wait >= at.value)
      && (after == 1 || (within.Some? && wait - 1.0 < within.value) || (at.Some? && now + wait - 1.0 < at.value))
  }

  /** The emitted delay: exact up to the cap of 31 days, the cap beyond it; and the time it ends, in whole seconds. */
  lemma DelayIsExact(resetsIn: Option<real>, resetsAt: Option<real>, now: real)
    requires resetsIn.Some? ==> resetsIn.value >= 0.0
    requires resetsAt.Some? ==> resetsAt.value >= 0.0
    ensures var r := Extract(resetsIn, resetsAt, now);
      && (resetsIn.None? && resetsAt.None? ==> r.after == 3601 && r.clamped)
      && (resetsIn.Some? || resetsAt.Some? ==> if r.clamped then r.after == 2678400 else WaitsFor(r.after, resetsIn, resetsAt, now))
      && (resetsIn.Some? || resetsAt.Some? ==>
            (r.clamped <==> (resetsIn.Some? && resetsIn.value > 2678399.0) || (resetsAt.Some? && resetsAt.value - now > 2678399.0)))
      && RoundsUp(r.until, now + r.after as real)
  {
    CeilBelow(RawDelay(resetsIn, resetsAt, now), MAX_RESET - SAFETY);
  }

  /** The reported windows are passed on in whole seconds within the cap, and are consistent if they differ by five at most. */
  lemma ReportedWindowsArePassedOn(resetsIn: Option<real>, resetsAt: Option<real>, now: real)
    requires resetsIn.Some? ==> resetsIn.value >= 0.0
    requires resetsAt.Some? ==> resetsAt.value >= 0.0
    ensures var r := Extract(resetsIn, resetsAt, now);
      && (if resetsAt.Some? && resetsAt.value - now <= 2678400.0 then RoundsUp(r.resetsAt, resetsAt.value) else r.resetsAt == 0)
      && (if resetsIn.None? then r.reportedIn == 0
          else if resetsIn.value > 2678400.0 then r.reportedIn == 2678400
          else RoundsUp(r.reportedIn, resetsIn.value))
      && (resetsIn.None? && resetsAt.None? ==> !r.consistent)
      && (resetsIn.Some? != resetsAt.Some? ==> r.consistent)
      && (resetsIn.Some? && resetsAt.Some? ==>
            var left := if resetsAt.value < now then 0.0 else resetsAt.value - now;
            r.consistent <==> resetsIn.value <= left + 5.0 && left <= resetsIn.value + 5.0)
  {
  }

  /** A negative window counts as none. */
  lemma NegativeWindowsAreIgnored(resetsIn: Option<real>, resetsAt: Option<real>, now: real)
    ensures resetsIn.Some? && resetsIn.value < 0.0 ==> Extract(resetsIn, resetsAt, now) == Extract(None, resetsAt, now)
    ensures resetsAt.Some? && resetsAt.value < 0.0 ==> Extract(resetsIn, resetsAt, now) == Extract(resetsIn, None, now)
  {
  }

  /** Stored metadata is refused exactly when its delay or its end is negative or its end is more than 31 days off; else it is
   * kept as it is but for numbers out of range, and normalises to itself from then on. */
  lemma NormalizeExactly(v: Retry, now: real, later: real)
    requires now <= later
    ensures Normalize(v, now).None? <==> v.after < 0 || v.until <= 0 || (v.until - 1) as real >= now + 2678400.0
    ensures Normalize(v, now).Some? ==>
      var r := Normalize(v, now).value;
      && r.until == v.until && r.consistent == v.consistent && r.clamped == v.clamped
      && 1 <= r.after <= 2678400 && (1 <= v.after <= 2678400 ==> r.after == v.after)
      && r.resetsAt >= 0 && (v.resetsAt >= 0 ==> r.resetsAt == v.resetsAt)
      && 0 <= r.reportedIn <= 2678400 && (0 <= v.reportedIn <= 2678400 ==> r.reportedIn == v.reportedIn)
      && Normalize(r, later) == Some(r)
  {
    CeilMonotone(now + MAX_RESET as real, later + MAX_RESET as real);
    CeilBelow(now + MAX_RESET as real, v.until - 1);
  }

  /** Emitted metadata normalises to itself at the same or any later clock exactly when it ends after the epoch. */
  lemma NormalizeKeepsEmitted(resetsIn: Option<real>, resetsAt: Option<real>, now: real, later: real)
    requires now <= later
    ensures var emitted := Extract(resetsIn, resetsAt, now);
      Normalize(emitted, later) == Some(emitted) <==> now + emitted.after as real > 0.0
  {
    var emitted := Extract(resetsIn, resetsAt, now);
    DelayIsBounded(resetsIn, resetsAt, now);
    CeilMonotone(now + emitted.after as real, later + MAX_RESET as real);
    CeilBelow(now + emitted.after as real, 0);
    var within := Usable(resetsIn);
    if within.Some? {
      CeilBelow(within.value, MAX_RESET);
    }
  }

  /** Ten seconds before the epoch, a reset in one second is emitted as a time before the epoch, and then refused. */
  lemma BeforeTheEpochExample()
    ensures Extract(Some(1.0), None, -10.0).until == -8 && Normalize(Extract(Some(1.0), None, -10.0), -10.0).None?
  {
    assert Ceil(1.0) == 1 && Ceil(-8.0) == -8;
  }
}
