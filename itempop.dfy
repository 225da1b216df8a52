/** The quick-stats popup: four counters, their total, the rounded percentage of
    each counter and the width of its progress bar. */
module Stats {

  datatype Stats = Stats(available: int, sold: int, damaged: int, returned: int)

  datatype Bars = Bars(available: int, sold: int, damaged: int, returned: int)

  function Sum(s: Stats): int
  {
    s.available + s.sold + s.damaged + s.returned
  }

  predicate NonNegative(s: Stats)
  {
    s.available >= 0 && s.sold >= 0 && s.damaged >= 0 && s.returned >= 0
  }

  /** `Math.max(1, available + sold + damaged + returned)`: the divisor of every
      percentage, never zero. */
  function Total(s: Stats): (t: int)
    ensures t >= 1 && t >= Sum(s)
    ensures t == 1 || t == Sum(s)
  {
    if Sum(s) > 1 then Sum(s) else 1
  }

  /** `Math.round(value / total * 100)` in exact arithmetic: rounding half up,
      so that 100 * value / total lies in [r - 1/2, r + 1/2). */
  function Progress(value: int, total: int): (r: int)
    requires total >= 1
    ensures 2 * total * r - total <= 200 * value < 2 * total * r + total
    ensures 0 <= value <= total ==> 0 <= r <= 100
  {
    var r := (200 * value + total) / (2 * total);
    RoundingBounds(200 * value + total, 2 * total, r);
    if 0 <= value <= total then
      PercentInRange(value, total, r);
      r
    else
      r
  }

  lemma RoundingBounds(n: int, d: int, q: int)
    requires d >= 1 && q == n / d
    ensures d * q <= n < d * q + d
  {
  }

  /** The rounding characterization pins the result inside [0, 100] when the
      counter is at most the total. */
  lemma PercentInRange(value: int, total: int, r: int)
    requires total >= 1 && 0 <= value <= total
    requires 2 * total * r - total <= 200 * value < 2 * total * r + total
    ensures 0 <= r <= 100
  {
    assert total * (2 * r + 1) > 0;
    SignOfFactor(total, 2 * r + 1);
    assert total * (201 - 2 * r) >= 0;
    SignOfFactor(total, 201 - 2 * r);
  }

  lemma SignOfFactor(a: int, b: int)
    requires a >= 1
    ensures a * b > 0 ==> b > 0
    ensures a * b >= 0 ==> b >= 0
  {
  }

  /** The four bar values of the popup. */
  function Percentages(s: Stats): (p: Bars)
    ensures NonNegative(s) ==>
      0 <= p.available <= 100 && 0 <= p.sold <= 100 &&
      0 <= p.damaged <= 100 && 0 <= p.returned <= 100
  {
    var t := Total(s);
    Bars(Progress(s.available, t), Progress(s.sold, t),
                Progress(s.damaged, t), Progress(s.returned, t))
  }

  /** `Math.min(100, Math.max(0, value))`: the progress bar width. */
  function BarWidth(value: int): (w: int)
    ensures 0 <= w <= 100
    ensures 0 <= value <= 100 ==> w == value
    ensures value < 0 ==> w == 0
    ensures value > 100 ==> w == 100
  {
    if value < 0 then 0 else if value > 100 then 100 else value
  }

  /** The customers popup is opened with all counters zero: the total floors to
      1 and every bar is empty. */
  lemma AllZeroStats()
    ensures Total(Stats(0, 0, 0, 0)) == 1
    ensures Percentages(Stats(0, 0, 0, 0)) == Bars(0, 0, 0, 0)
  {
  }

  /** The products popup: 120 + 45 + 3 + 7 = 175, giving 69 %, 26 %, 2 % and 4 %. */
  lemma ProductStatsExample()
    ensures Total(Stats(120, 45, 3, 7)) == 175
    ensures Percentages(Stats(120, 45, 3, 7)) == Bars(69, 26, 2, 4)
  {
  }

  /** The sales popup: 0 + 200 + 2 + 10 = 212, giving 0 %, 94 %, 1 % and 5 %. */
  lemma SalesStatsExample()
    ensures Total(Stats(0, 200, 2, 10)) == 212
    ensures Percentages(Stats(0, 200, 2, 10)) == Bars(0, 94, 1, 5)
  {
  }
}
