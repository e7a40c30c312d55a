/**
  The ceiling-based projections that `Form1.OnTelemetryUpdated` derives after a
  counted lap and again on pit entry. Fuel and time are `real`; every integer the
  source obtains with `(int)Math.Ceiling` is an unbounded `int` here. Where the source
  divides by a zero divisor (and gets an infinity or NaN), the quotient here is 0.

  The functions carry only the linear part of their meaning; the lemmas below state
  what each projection means in terms of its inputs.
*/
module Projection {
  import opened Stats

  /** The least integer not below `x`, as `Math.Ceiling`. */
  function Ceil(x: real): (n: int)
    ensures x <= n as real < x + 1.0
  {
    -((-x).Floor)
  }

  /** `a / b`, with 0 in place of the source's non-finite result when `b` is zero. */
  function DivOrZero(a: real, b: real): (q: real)
    ensures b == 0.0 ==> q == 0.0
  {
    if b == 0.0 then 0.0 else a / b
  }

  /** Laps left: remaining session time over the average lap time, rounded up (Form1.cs:146). */
  function EstimatedLaps(remaining: real, averageLapTime: real): (n: int)
    ensures averageLapTime == 0.0 ==> n == 0
  {
    Ceil(DivOrZero(remaining, averageLapTime))
  }

  /** Fuel to the end: the effective rate times the laps left plus the user's offset (Form1.cs:144, 147). */
  function TotalFuelRequired(fuelPerLap: real, fuelMult: real, estimatedLaps: int, lapOffset: int): real
  {
    var avgFuel := fuelPerLap * fuelMult;
    avgFuel * (estimatedLaps + lapOffset) as real
  }

  /** Stops: total fuel over the capacity, rounded up (Form1.cs:148). */
  function EstimatedStops(total: real, maxFuel: real): (n: int)
    ensures maxFuel == 0.0 ==> n == 0
  {
    Ceil(DivOrZero(total, maxFuel))
  }

  /** The share of the total fuel taken on at each stop (Form1.cs:150). */
  function FuelPerStop(total: real, stops: int): (f: real)
    ensures stops == 0 ==> f == 0.0
  {
    DivOrZero(total, stops as real)
  }

  /**
    Fuel to add now: the fewest whole units that bring `fuelLevel` up to the per-stop
    share (Form1.cs:151 and, for the pit command, :179). When `stops` is zero the share
    is 0.
  */
  function FuelToAdd(total: real, stops: int, fuelLevel: real): int
  {
    Ceil(FuelPerStop(total, stops) - fuelLevel)
  }

  /** The four projections recomputed after each counted lap, in the order the source computes them. */
  datatype Forecast = Forecast(estimatedLaps: int, totalFuelRequired: real, estimatedStops: int, fuelToAdd: int)

  /** Form1.cs:144-151: laps left, fuel required, stops, and fuel to add at the current level. */
  function Project(remaining: real, averageLapTime: real, fuelPerLap: real, fuelMult: real, lapOffset: int,
                   maxFuel: real, fuelLevel: real): Forecast
  {
    var laps := EstimatedLaps(remaining, averageLapTime);
    var total := TotalFuelRequired(fuelPerLap, fuelMult, laps, lapOffset);
    var stops := EstimatedStops(total, maxFuel);
    Forecast(laps, total, stops, FuelToAdd(total, stops, fuelLevel))
  }

  // ---------------------------------------------------------------------------
  // Lemmas

  /** The fuel to add is the fewest whole units that bring the tank up to the per-stop share. */
  lemma FuelToAddReachesShare(total: real, stops: int, fuelLevel: real)
    ensures var share := FuelPerStop(total, stops);
      share <= fuelLevel + FuelToAdd(total, stops, fuelLevel) as real < share + 1.0
  {
  }

  /** A non-zero divisor gives the true quotient. */
  lemma DivOrZeroInverse(a: real, b: real)
    requires b != 0.0
    ensures DivOrZero(a, b) * b == a
  {
  }

  /** With `q * b == a` and `b > 0`, rounding `q` up gives the fewest multiples of `b` that reach `a`. */
  lemma ScaleCeil(q: real, b: real, a: real)
    requires b > 0.0 && q * b == a
    ensures a <= Ceil(q) as real * b && (Ceil(q) - 1) as real * b < a
  {
    var c := Ceil(q) as real;
    assert q <= c;
    assert a <= c * b;
    StrictBelow(q, b, a, c - 1.0);
    assert (Ceil(q) - 1) as real == c - 1.0;
  }

  lemma StrictBelow(q: real, b: real, a: real, c: real)
    requires b > 0.0 && q * b == a && c < q
    ensures c * b < a
  {
    var d := q - c;
    assert d * b > 0.0;
    assert d * b == q * b - c * b;
  }

  /** The estimated laps are the fewest whole laps of the average time that cover the remaining time. */
  lemma LapsCoverRemaining(remaining: real, averageLapTime: real)
    requires averageLapTime > 0.0
    ensures var n := EstimatedLaps(remaining, averageLapTime);
      remaining <= n as real * averageLapTime && (n - 1) as real * averageLapTime < remaining
  {
    ScaleCeil(DivOrZero(remaining, averageLapTime), averageLapTime, remaining);
  }

  /** With positive remaining time and lap time, at least one lap is left. */
  lemma LapsPositive(remaining: real, averageLapTime: real)
    requires remaining > 0.0 && averageLapTime > 0.0
    ensures EstimatedLaps(remaining, averageLapTime) >= 1
  {
    LapsCoverRemaining(remaining, averageLapTime);
  }

  /** The fuel required is never negative when the rate, the multiplier and the lap count are not. */
  lemma TotalFuelNonNegative(fuelPerLap: real, fuelMult: real, estimatedLaps: int, lapOffset: int)
    requires fuelPerLap >= 0.0 && fuelMult >= 0.0 && estimatedLaps + lapOffset >= 0
    ensures TotalFuelRequired(fuelPerLap, fuelMult, estimatedLaps, lapOffset) >= 0.0
  {
    NonNegativeProduct(fuelPerLap, fuelMult);
    NonNegativeProduct(fuelPerLap * fuelMult, (estimatedLaps + lapOffset) as real);
  }

  /** The estimated stops are the fewest full tanks that hold the fuel required. */
  lemma StopsHoldTotal(total: real, maxFuel: real)
    requires maxFuel > 0.0
    ensures var n := EstimatedStops(total, maxFuel);
      total <= n as real * maxFuel && (n - 1) as real * maxFuel < total
  {
    ScaleCeil(DivOrZero(total, maxFuel), maxFuel, total);
  }

  /** Some fuel to carry and a known capacity mean at least one stop. */
  lemma StopsPositive(total: real, maxFuel: real)
    requires total > 0.0 && maxFuel > 0.0
    ensures EstimatedStops(total, maxFuel) >= 1
  {
    StopsHoldTotal(total, maxFuel);
  }

  /** The per-stop shares add up to the total. */
  lemma SharesAddUp(total: real, stops: int)
    requires stops != 0
    ensures FuelPerStop(total, stops) * stops as real == total
  {
    DivOrZeroInverse(total, stops as real);
  }

  /**
    With a positive stop count, taking on the fuel-to-add amount at each stop carries
    at least the total fuel required.
  */
  lemma FuelToAddCoversTotal(total: real, stops: int, fuelLevel: real)
    requires stops > 0
    ensures (fuelLevel + FuelToAdd(total, stops, fuelLevel) as real) * stops as real >= total
  {
    var share := FuelPerStop(total, stops);
    var reach := fuelLevel + FuelToAdd(total, stops, fuelLevel) as real;
    SharesAddUp(total, stops);
    FuelToAddReachesShare(total, stops, fuelLevel);
    assert share <= reach;
    assert share * stops as real <= reach * stops as real;
  }

  /**
    With positive inputs and a non-negative lap offset, the forecast covers the race:
    at least one lap is left and the laps cover the remaining time, some fuel is
    required, at least one stop is planned and the stops' full tanks hold the total,
    and taking on the fuel to add at each stop carries the total.
  */
  lemma ForecastCovers(remaining: real, averageLapTime: real, fuelPerLap: real, fuelMult: real, lapOffset: int,
                       maxFuel: real, fuelLevel: real)
    requires remaining > 0.0 && averageLapTime > 0.0 && fuelPerLap > 0.0 && fuelMult > 0.0
    requires lapOffset >= 0 && maxFuel > 0.0
    ensures var f := Project(remaining, averageLapTime, fuelPerLap, fuelMult, lapOffset, maxFuel, fuelLevel);
      && f.estimatedLaps >= 1
      && remaining <= f.estimatedLaps as real * averageLapTime
      && f.totalFuelRequired > 0.0
      && f.estimatedStops >= 1
      && f.totalFuelRequired <= f.estimatedStops as real * maxFuel
      && (fuelLevel + f.fuelToAdd as real) * f.estimatedStops as real >= f.totalFuelRequired
  {
    var laps := EstimatedLaps(remaining, averageLapTime);
    LapsCoverRemaining(remaining, averageLapTime);
    LapsPositive(remaining, averageLapTime);
    var total := TotalFuelRequired(fuelPerLap, fuelMult, laps, lapOffset);
    PositiveProduct(fuelPerLap, fuelMult);
    PositiveProduct(fuelPerLap * fuelMult, (laps + lapOffset) as real);
    StopsHoldTotal(total, maxFuel);
    StopsPositive(total, maxFuel);
    FuelToAddCoversTotal(total, EstimatedStops(total, maxFuel), fuelLevel);
  }

  /** Two worked figures: 55 units in a 30-unit tank take 2 stops; 27.5 from 10.2 needs 18. */
  lemma ProjectionExamples()
    ensures EstimatedStops(55.0, 30.0) == 2
    ensures FuelToAdd(55.0, 2, 10.2) == 18
  {
    assert DivOrZero(55.0, 30.0) == 55.0 / 30.0;
    assert FuelPerStop(55.0, 2) == 27.5;
  }
}
