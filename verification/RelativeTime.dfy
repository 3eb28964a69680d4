/**
 The relative-time label of a timestamp and the delay until the label changes,
 over integer milliseconds. Rounding is to the nearest integer, halves upward.
 */
module RelativeTime {
  datatype Label = JustNow | UnderAMinute | Minutes(n: int) | Hours(n: int) | Days(n: int)

  /** The nearest integer to n / d; Dafny's division rounds down for a positive divisor. */
  function Round(n: int, d: int): int
    requires d > 0 && d % 2 == 0
  {
    (n + d / 2) / d
  }

  function ElapsedSeconds(t: int, now: int): nat {
    var s := Round(now - t, 1000);
    if s > 0 then s else 0
  }

  function LabelOf(s: nat): Label {
    if s < 10 then JustNow
    else if s < 60 then UnderAMinute
    else if s < 3600 then Minutes(Round(s, 60))
    else if s < 86400 then Hours(Round(s, 3600))
    else Days(Round(s, 86400))
  }

  function RelativeLabel(t: int, now: int): Label {
    LabelOf(ElapsedSeconds(t, now))
  }

  function Min(a: int, b: int): int {
    if a <= b then a else b
  }

  function NextDisplaySecond(s: nat): int {
    if s < 10 then 10
    else if s < 60 then 60
    else if s < 3600 then Min(Round(s, 60) * 60 + 30, 3600)
    else if s < 86400 then Min(Round(s, 3600) * 3600 + 1800, 86400)
    else Round(s, 86400) * 86400 + 43200
  }

  function DelayUntil(target: int, now: int): int {
    if target - now > 1 then target - now else 1
  }

  /** Half a second before the next display second, when rounding first reaches it. */
  function RefreshTarget(t: int, now: int): int {
    t + 1000 * NextDisplaySecond(ElapsedSeconds(t, now)) - 500
  }

  function RefreshDelay(t: int, now: int): int {
    DelayUntil(RefreshTarget(t, now), now)
  }

  // ---------- What a label says ----------

  /** The label's number is within half a unit of the seconds elapsed, a half counting for the higher one. */
  predicate Says(shown: Label, s: nat) {
    match shown
    case JustNow => s < 10
    case UnderAMinute => 10 <= s < 60
    case Minutes(n) => 60 <= s < 60 * 60 && 60 * n - 30 <= s < 60 * n + 30
    case Hours(n) => 60 * 60 <= s < 24 * 60 * 60 && 2 * s >= (2 * n - 1) * 60 * 60 && 2 * s < (2 * n + 1) * 60 * 60
    case Days(n) => 24 * 60 * 60 <= s && 2 * s >= (2 * n - 1) * 24 * 60 * 60 && 2 * s < (2 * n + 1) * 24 * 60 * 60
  }

  /** The label of a second is the one that says so, and the seconds are within half a second of the time elapsed. */
  lemma {:induction false} LabelSays(t: int, now: int, shown: Label)
    ensures var s := ElapsedSeconds(t, now);
            if now <= t then s == 0 else 1000 * s - 500 <= now - t < 1000 * s + 500
    ensures RelativeLabel(t, now) == shown <==> Says(shown, ElapsedSeconds(t, now))
  {
    var s := ElapsedSeconds(t, now);
    match shown {
      case Minutes(n) => assert Round(s, 60) == n <==> 60 * n - 30 <= s < 60 * n + 30;
      case Hours(n) => assert Round(s, 3600) == n <==> 3600 * n - 1800 <= s < 3600 * n + 1800;
      case Days(n) => assert Round(s, 86400) == n <==> 86400 * n - 43200 <= s < 86400 * n + 43200;
      case _ =>
    }
  }

  // ---------- The delay is the least one that changes the label ----------

  /** The next display second is later, has another label, and no second before it has. */
  lemma {:induction false} NextSecondIsNext(s: nat)
    ensures var n := NextDisplaySecond(s); n > s && LabelOf(n) != LabelOf(s)
    ensures forall k :: s <= k < NextDisplaySecond(s) ==> LabelOf(k) == LabelOf(s)
  {
    // Up to half a unit past a rounded value, the rounded value stays.
    assert forall k :: s <= k < Round(s, 60) * 60 + 30 ==> Round(k, 60) == Round(s, 60);
    assert forall k :: s <= k < Round(s, 3600) * 3600 + 1800 ==> Round(k, 3600) == Round(s, 3600);
    assert forall k :: s <= k < Round(s, 86400) * 86400 + 43200 ==> Round(k, 86400) == Round(s, 86400);
  }

  /**
   For every pair of instants the label stays the same at every instant before now plus
   the delay and differs exactly there; the clamp to one millisecond never takes effect.
   */
  lemma {:induction false} DelayIsExact(t: int, now: int)
    ensures RefreshDelay(t, now) == RefreshTarget(t, now) - now >= 1
    ensures forall later :: now <= later < now + RefreshDelay(t, now) ==> RelativeLabel(t, later) == RelativeLabel(t, now)
    ensures RelativeLabel(t, now + RefreshDelay(t, now)) != RelativeLabel(t, now)
  {
    var s := ElapsedSeconds(t, now);
    var n := NextDisplaySecond(s);
    NextSecondIsNext(s);
    assert ElapsedSeconds(t, t + 1000 * n - 500) == n;
    forall later | now <= later < RefreshTarget(t, now)
      ensures RelativeLabel(t, later) == RelativeLabel(t, now)
    {
      assert s <= ElapsedSeconds(t, later) < n;
    }
  }
}
