/** Child-order schedules: weights by algo mode, quantities that add up to the
    parent, and the search for the largest slice count the venue accepts. */
module Slicer {
  import opened Arithmetic
  import opened Collections
  import opened VenueSizing

  datatype AlgoMode = Normal | FrontLoad | BackLoad
  datatype Slice = Slice(index: nat, qty: real, delaySec: real)
  datatype Result<+T> = Ok(value: T) | ValueError

  /** The exponential, of which no more is used than these laws. */
  type Exp = real -> real

  ghost predicate Positive(exp: Exp) { forall x :: exp(x) > 0.0 }

  ghost predicate Increasing(exp: Exp) { forall x, y :: x < y ==> exp(x) < exp(y) }

  ghost predicate TurnsSumsToProducts(exp: Exp) { forall x, y :: exp(x + y) == Times(exp(x), exp(y)) }

  function Tau(n: nat): real { if n as real / 2.0 > 1.0 then n as real / 2.0 else 1.0 }

  function RawWeight(mode: AlgoMode, n: nat, i: nat, exp: Exp): real
    requires i < n
  {
    match mode
    case Normal => 1.0
    case FrontLoad => exp(-(i as real) / Tau(n))
    case BackLoad => exp((i - (n - 1)) as real / Tau(n))
  }

  function RawWeights(mode: AlgoMode, n: nat, exp: Exp): seq<real> {
    seq(n, i requires 0 <= i < n => RawWeight(mode, n, i, exp))
  }

  lemma {:induction false} SumPositive(s: seq<real>)
    requires s != [] && forall i :: 0 <= i < |s| ==> s[i] > 0.0
    ensures Sum(s) > 0.0
  {
    if |s| > 1 {
      SumPositive(s[..|s| - 1]);
    } else {
      assert Sum(s[..0]) == 0.0;
    }
  }

  lemma {:induction false} SumScale(s: seq<real>, c: real)
    ensures Sum(seq(|s|, i requires 0 <= i < |s| => Times(c, s[i]))) == Times(c, Sum(s))
  {
    var scaled := seq(|s|, i requires 0 <= i < |s| => Times(c, s[i]));
    if s != [] {
      var init := s[..|s| - 1];
      SumScale(init, c);
      assert scaled[..|s| - 1] == seq(|init|, i requires 0 <= i < |init| => Times(c, init[i]));
      TimesAdds(c, Sum(init), s[|s| - 1]);
    }
  }

  /** _weights */
  function Weights(mode: AlgoMode, n: nat, exp: Exp): seq<real>
    requires n > 0 && Sum(RawWeights(mode, n, exp)) > 0.0
  {
    if mode.Normal? || n == 1 then seq(n, _ => 1.0 / n as real)
    else
      var raw := RawWeights(mode, n, exp);
      var s := Total(raw);
      seq(n, i requires 0 <= i < n => Ratio(raw[i], s))
  }

  lemma RawWeightsPositive(mode: AlgoMode, n: nat, exp: Exp)
    requires n > 0 && Positive(exp)
    ensures Sum(RawWeights(mode, n, exp)) > 0.0
    ensures forall i :: 0 <= i < n ==> RawWeights(mode, n, exp)[i] > 0.0
  {
    SumPositive(RawWeights(mode, n, exp));
  }

  /** A back-loaded parent is the front-loaded one in reverse. */
  lemma BackLoadMirrorsFrontLoad(n: nat, i: nat, exp: Exp)
    requires i < n
    ensures RawWeights(BackLoad, n, exp)[i] == RawWeights(FrontLoad, n, exp)[n - 1 - i]
  {
    assert (i - (n - 1)) as real == -((n - 1 - i) as real);
  }

  lemma RatioIsTimes(x: real, y: real)
    requires y > 0.0
    ensures Ratio(x, y) == Times(1.0 / y, x) && (x > 0.0 ==> Ratio(x, y) > 0.0) && Times(1.0 / y, y) == 1.0
  {
  }

  /** Weights are positive and sum to one in every mode. */
  lemma WeightsSumToOne(mode: AlgoMode, n: nat, exp: Exp)
    requires n > 0 && Positive(exp)
    ensures Sum(RawWeights(mode, n, exp)) > 0.0
    ensures Sum(Weights(mode, n, exp)) == 1.0
    ensures forall i :: 0 <= i < n ==> Weights(mode, n, exp)[i] > 0.0
  {
    RawWeightsPositive(mode, n, exp);
    var w := Weights(mode, n, exp);
    if mode.Normal? || n == 1 {
      SumConstant(n, 1.0 / n as real);
      assert w == seq(n, _ => 1.0 / n as real);
      RatioIsTimes(n as real, n as real);
      assert Times(n as real, 1.0 / n as real) == 1.0;
    } else {
      var raw := RawWeights(mode, n, exp);
      var s := Sum(raw);
      SumScale(raw, 1.0 / s);
      forall i | 0 <= i < n ensures w[i] == Times(1.0 / s, raw[i]) && w[i] > 0.0 {
        RatioIsTimes(raw[i], s);
      }
      assert w == seq(|raw|, i requires 0 <= i < |raw| => Times(1.0 / s, raw[i]));
      RatioIsTimes(s, s);
    }
  }

  // --- Quantities ----------------------------------------------------------------

  function Scaled(weights: seq<real>, total: real): seq<real> {
    seq(|weights|, i requires 0 <= i < |weights| => Times(total, weights[i]))
  }

  /** Weighted quantities with the drift patched into the last one. */
  function Quantities(weights: seq<real>, total: real): seq<real>
    requires weights != []
  {
    var qtys := Scaled(weights, total);
    qtys[|qtys| - 1 := qtys[|qtys| - 1] + (total - Total(qtys))]
  }

  /** Whatever the weights, the patched quantities sum to the parent exactly. */
  lemma QuantitiesSumExactly(weights: seq<real>, total: real)
    requires weights != []
    ensures Sum(Quantities(weights, total)) == total
  {
    var qtys := Scaled(weights, total);
    var q := Quantities(weights, total);
    assert q[..|q| - 1] == qtys[..|q| - 1];
  }

  lemma QuantitiesPositive(weights: seq<real>, total: real)
    requires weights != [] && total > 0.0 && Sum(weights) == 1.0
    requires forall i :: 0 <= i < |weights| ==> weights[i] > 0.0
    ensures Quantities(weights, total) == Scaled(weights, total)
    ensures forall i :: 0 <= i < |weights| ==> Quantities(weights, total)[i] > 0.0
  {
    SumScale(weights, total);
    TimesNegates(total, 1.0);
    hide Times, Sum;
    TimesNegates(1.0, total);
    forall i | 0 <= i < |weights| ensures Scaled(weights, total)[i] > 0.0 {
      TimesSign(weights[i], total);
    }
  }

  function Delay(i: nat, interval: real): real { i as real * interval }

  function Slices(mode: AlgoMode, total: real, duration: real, n: nat, exp: Exp): seq<Slice>
    requires n > 0 && Sum(RawWeights(mode, n, exp)) > 0.0
  {
    var qtys := Quantities(Weights(mode, n, exp), total);
    seq(n, i requires 0 <= i < n => Slice(i, qtys[i], Delay(i, duration / n as real)))
  }

  /** build_schedule */
  function BuildSchedule(mode: AlgoMode, total: real, duration: real, n: int, exp: Exp): Result<seq<Slice>>
    requires n > 0 ==> Sum(RawWeights(mode, n, exp)) > 0.0
  {
    if n <= 0 || total <= 0.0 || duration <= 0.0 then ValueError else Ok(Slices(mode, total, duration, n, exp))
  }

  function QtysOf(s: seq<Slice>): seq<real> { seq(|s|, i requires 0 <= i < |s| => s[i].qty) }

  /** What every schedule for `total` over `duration` is: indexed in order, sized
      positively and exactly, and timed within the duration. */
  ghost predicate Schedules(s: seq<Slice>, total: real, duration: real) {
    && s != [] && Sum(QtysOf(s)) == total
    && (forall i :: 0 <= i < |s| ==> s[i].index == i && s[i].qty > 0.0 && 0.0 <= s[i].delaySec < duration)
    && (forall i, j :: 0 <= i < j < |s| ==> s[i].delaySec < s[j].delaySec)
  }

  lemma DelayInDuration(i: nat, n: nat, duration: real)
    requires i < n && duration > 0.0
    ensures 0.0 <= Delay(i, duration / n as real) < duration
  {
    var step := duration / n as real;
    assert step > 0.0 && n as real * step == duration;
    assert (n - i) as real * step > 0.0;
    assert (n - i) as real * step == n as real * step - i as real * step;
  }

  lemma DelayGrows(i: nat, j: nat, n: nat, duration: real)
    requires i < j < n && duration > 0.0
    ensures Delay(i, duration / n as real) < Delay(j, duration / n as real)
  {
    var step := duration / n as real;
    assert (j - i) as real * step > 0.0;
    assert (j - i) as real * step == j as real * step - i as real * step;
  }

  lemma ScheduleIsExact(mode: AlgoMode, total: real, duration: real, n: nat, exp: Exp)
    requires n > 0 && total > 0.0 && duration > 0.0 && Positive(exp)
    ensures Sum(RawWeights(mode, n, exp)) > 0.0
    ensures Schedules(Slices(mode, total, duration, n, exp), total, duration)
  {
    WeightsSumToOne(mode, n, exp);
    var w := Weights(mode, n, exp);
    QuantitiesSumExactly(w, total);
    QuantitiesPositive(w, total);
    var s := Slices(mode, total, duration, n, exp);
    hide Quantities, Weights, RawWeights, Delay;
    assert QtysOf(s) == Quantities(w, total);
    forall i | 0 <= i < n ensures 0.0 <= s[i].delaySec < duration {
      DelayInDuration(i, n, duration);
    }
    forall i, j | 0 <= i < j < n ensures s[i].delaySec < s[j].delaySec {
      DelayGrows(i, j, n, duration);
    }
  }

  // --- The shape of a schedule ------------------------------------------------------

  predicate Ordered(mode: AlgoMode, first: Slice, later: Slice) {
    match mode
    case FrontLoad => first.qty > later.qty
    case BackLoad => first.qty < later.qty
    case Normal => first.qty == later.qty
  }

  /** Sizes fall in FRONTLOAD, rise in BACKLOAD and are equal in NORMAL. */
  ghost predicate Shaped(mode: AlgoMode, s: seq<Slice>) {
    forall i, j :: 0 <= i < j < |s| ==> Ordered(mode, s[i], s[j])
  }

  predicate Neighbours(mode: AlgoMode, first: Slice, second: Slice, factor: real) {
    match mode
    case FrontLoad => second.qty == Times(first.qty, factor)
    case BackLoad => first.qty == Times(second.qty, factor)
    case Normal => second.qty == first.qty
  }

  /** Neighbours of n slices differ by the factor exp(-2 / n), so the largest size is
      exp(2 - 2 / n) times the smallest. */
  ghost predicate Decays(mode: AlgoMode, s: seq<Slice>, exp: Exp) {
    forall i, j :: 0 <= i < |s| && j == i + 1 && j < |s| ==>
      Neighbours(mode, s[i], s[j], exp(-2.0 / |s| as real))
  }

  lemma QtyIs(mode: AlgoMode, total: real, duration: real, n: nat, exp: Exp, i: nat)
    requires i < n && total > 0.0 && Positive(exp)
    ensures Sum(RawWeights(mode, n, exp)) > 0.0
    ensures var raw := RawWeights(mode, n, exp);
      Slices(mode, total, duration, n, exp)[i].qty
      == Times(total, if mode.Normal? || n == 1 then 1.0 / n as real else Ratio(raw[i], Sum(raw)))
  {
    WeightsSumToOne(mode, n, exp);
    QuantitiesPositive(Weights(mode, n, exp), total);
  }

  /** Dividing by the same sum and multiplying by the same total keeps order and ratio. */
  lemma SharesKeepShape(total: real, sum: real, x: real, y: real, f: real)
    requires total > 0.0 && sum > 0.0
    ensures x < y <==> Times(total, Ratio(x, sum)) < Times(total, Ratio(y, sum))
    ensures y == Times(x, f) ==> Times(total, Ratio(y, sum)) == Times(Times(total, Ratio(x, sum)), f)
  {
    RatioTimes(x, sum);
    RatioTimes(y, sum);
    TimesOrder(Ratio(x, sum), Ratio(y, sum), sum);
    TimesOrder(Ratio(x, sum), Ratio(y, sum), total);
    TimesNegates(total, Ratio(x, sum));
    TimesNegates(total, Ratio(y, sum));
    if y == Times(x, f) {
      assert Ratio(y, sum) == Times(Ratio(x, sum), f);
      assert Times(total, Times(Ratio(x, sum), f)) == Times(Times(total, Ratio(x, sum)), f);
    }
  }

  lemma RawOrder(mode: AlgoMode, n: nat, exp: Exp, i: nat, j: nat)
    requires i < j < n && Increasing(exp)
    ensures mode.FrontLoad? ==> RawWeight(mode, n, i, exp) > RawWeight(mode, n, j, exp)
    ensures mode.BackLoad? ==> RawWeight(mode, n, i, exp) < RawWeight(mode, n, j, exp)
  {
    DividedOrder(-(j as real), -(i as real), Tau(n));
    DividedOrder((i - (n - 1)) as real, (j - (n - 1)) as real, Tau(n));
  }

  lemma DividedOrder(x: real, y: real, d: real)
    requires d > 0.0 && x < y
    ensures x / d < y / d
  {
    assert (y - x) / d > 0.0 && (y - x) / d == y / d - x / d;
  }

  lemma SlicesShaped(mode: AlgoMode, total: real, duration: real, n: nat, exp: Exp)
    requires n > 0 && total > 0.0 && Positive(exp) && Increasing(exp)
    ensures Sum(RawWeights(mode, n, exp)) > 0.0 && Shaped(mode, Slices(mode, total, duration, n, exp))
  {
    RawWeightsPositive(mode, n, exp);
    var s, raw := Slices(mode, total, duration, n, exp), RawWeights(mode, n, exp);
    hide Slices, Positive, Increasing, Times, Ratio, Sum, RawWeight;
    forall i, j | 0 <= i < j < n ensures Ordered(mode, s[i], s[j]) {
      QtyIs(mode, total, duration, n, exp, i);
      QtyIs(mode, total, duration, n, exp, j);
      RawOrder(mode, n, exp, i, j);
      SharesKeepShape(total, Sum(raw), raw[i], raw[j], 1.0);
      SharesKeepShape(total, Sum(raw), raw[j], raw[i], 1.0);
    }
  }

  /** With two slices or more the floor of one on tau plays no part. */
  lemma RawDecay(mode: AlgoMode, n: nat, exp: Exp, i: nat)
    requires i + 1 < n && TurnsSumsToProducts(exp)
    ensures mode.FrontLoad? ==>
      RawWeight(mode, n, i + 1, exp) == Times(RawWeight(mode, n, i, exp), exp(-2.0 / n as real))
    ensures mode.BackLoad? ==>
      RawWeight(mode, n, i, exp) == Times(RawWeight(mode, n, i + 1, exp), exp(-2.0 / n as real))
  {
    var m := n as real;
    assert Tau(n) == m / 2.0;
    OneMoreStep(i as real, m);
    OneMoreStep((n - 1 - (i + 1)) as real, m);
    assert (i - (n - 1)) as real == -((n - 1 - (i + 1)) as real) - 1.0;
    assert (i + 1 - (n - 1)) as real == -((n - 1 - (i + 1)) as real);
  }

  lemma OneMoreStep(x: real, m: real)
    requires m > 0.0
    ensures (-x - 1.0) / (m / 2.0) == -x / (m / 2.0) + -2.0 / m
  {
  }

  lemma SlicesDecay(mode: AlgoMode, total: real, duration: real, n: nat, exp: Exp)
    requires n > 0 && total > 0.0 && Positive(exp) && TurnsSumsToProducts(exp)
    ensures Sum(RawWeights(mode, n, exp)) > 0.0 && Decays(mode, Slices(mode, total, duration, n, exp), exp)
  {
    RawWeightsPositive(mode, n, exp);
    SliceCount(mode, total, duration, n, exp);
    var s, raw, f := Slices(mode, total, duration, n, exp), RawWeights(mode, n, exp), exp(-2.0 / n as real);
    hide Slices, Positive, TurnsSumsToProducts, Times, Ratio, Sum, RawWeight;
    forall i, j | 0 <= i < n && j == i + 1 && j < n ensures Neighbours(mode, s[i], s[j], f) {
      QtyIs(mode, total, duration, n, exp, i);
      QtyIs(mode, total, duration, n, exp, j);
      RawDecay(mode, n, exp, i);
      SharesKeepShape(total, Sum(raw), raw[i], raw[j], f);
      SharesKeepShape(total, Sum(raw), raw[j], raw[i], f);
    }
  }

  // --- The viable schedule --------------------------------------------------------

  predicate AllSatisfy(s: seq<Slice>, filters: Option<Filters>, refPrice: Option<real>) {
    forall i :: 0 <= i < |s| ==> VenueQtyInBounds(s[i].qty, filters, refPrice)
  }

  ghost predicate Viable(mode: AlgoMode, total: real, duration: real, n: nat, exp: Exp,
                         filters: Option<Filters>, refPrice: Option<real>) {
    && n > 0 && Sum(RawWeights(mode, n, exp)) > 0.0
    && AllSatisfy(Slices(mode, total, duration, n, exp), filters, refPrice)
  }

  /** _single_shot_delay */
  function SingleShotDelay(mode: AlgoMode, duration: real): real {
    if duration <= 0.0 then 0.0
    else match mode
      case FrontLoad => 0.0
      case BackLoad => duration * 0.9
      case Normal => duration * 0.5
  }

  /** A lone slice goes out at once in FRONTLOAD, half way in NORMAL and at nine tenths in
      BACKLOAD. */
  lemma SingleShotTimes(duration: real)
    requires duration > 0.0
    ensures SingleShotDelay(FrontLoad, duration) == 0.0
    ensures SingleShotDelay(Normal, duration) + SingleShotDelay(Normal, duration) == duration
    ensures duration - SingleShotDelay(BackLoad, duration) == 0.1 * duration
  {
  }

  /** _build_viable_schedule: the schedule with the largest acceptable slice count,
      or one slice when none is acceptable; a lone slice that was not asked for is
      moved to the mode's single-shot time. */
  method BuildViableSchedule(mode: AlgoMode, total: real, duration: real, requested: int, exp: Exp,
                             filters: Option<Filters>, refPrice: Option<real>) returns (r: Result<seq<Slice>>)
    requires Positive(exp)
    ensures r.ValueError? <==> total <= 0.0 || duration <= 0.0
    ensures r.Ok? ==> Schedules(r.value, total, duration) && (|r.value| <= requested || |r.value| == 1)
    ensures r.Ok? ==>
      forall m :: |r.value| < m <= requested ==> !Viable(mode, total, duration, m, exp, filters, refPrice)
    ensures r.Ok? && |r.value| > 1 ==>
      Viable(mode, total, duration, |r.value|, exp, filters, refPrice)
      && r.value == Slices(mode, total, duration, |r.value|, exp)
    ensures r.Ok? && |r.value| == 1 && requested > 1 ==> r.value[0].delaySec == SingleShotDelay(mode, duration)
    ensures r.Ok? && Increasing(exp) ==> Shaped(mode, r.value)
    ensures r.Ok? && TurnsSumsToProducts(exp) ==> Decays(mode, r.value, exp)
  {
    hide Slices, RawWeights, AllSatisfy, Positive, Increasing, TurnsSumsToProducts;
    if total <= 0.0 || duration <= 0.0 {
      return ValueError;
    }
    var schedule: Option<seq<Slice>> := None;
    var n := requested;
    while n > 0 && schedule.None?
      invariant schedule.None? ==> n <= requested
      invariant schedule.None? ==>
        forall m :: n < m <= requested && m > 0 ==> !Viable(mode, total, duration, m, exp, filters, refPrice)
      invariant schedule.Some? ==>
        && 0 < n <= requested && |schedule.value| == n
        && Viable(mode, total, duration, n, exp, filters, refPrice)
        && schedule.value == Slices(mode, total, duration, n, exp)
        && (forall m :: n < m <= requested ==> !Viable(mode, total, duration, m, exp, filters, refPrice))
      decreases n, schedule.None?
    {
      RawWeightsPositive(mode, n, exp);
      SliceCount(mode, total, duration, n, exp);
      var candidate := BuildSchedule(mode, total, duration, n, exp).value;
      if AllSatisfy(candidate, filters, refPrice) {
        schedule := Some(candidate);
      } else {
        n := n - 1;
      }
    }
    if schedule.None? {
      n := 1;
      RawWeightsPositive(mode, 1, exp);
      SliceCount(mode, total, duration, 1, exp);
      schedule := Some(BuildSchedule(mode, total, duration, 1, exp).value);
    }
    ScheduleIsExact(mode, total, duration, n, exp);
    if Increasing(exp) {
      SlicesShaped(mode, total, duration, n, exp);
    }
    if TurnsSumsToProducts(exp) {
      SlicesDecay(mode, total, duration, n, exp);
    }
    var result := schedule.value;
    if |result| == 1 && requested > 1 {
      ghost var lone := result;
      result := [Slice(0, result[0].qty, SingleShotDelay(mode, duration))];
      assert QtysOf(result) == QtysOf(lone);
    }
    r := Ok(result);
  }

  lemma SliceCount(mode: AlgoMode, total: real, duration: real, n: nat, exp: Exp)
    requires n > 0 && Sum(RawWeights(mode, n, exp)) > 0.0
    ensures |Slices(mode, total, duration, n, exp)| == n
  {
  }
}
