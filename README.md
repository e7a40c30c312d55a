# IrFuelCalc fuel estimator, modelled in Dafny

IrFuelCalc is a small Windows Forms companion for iRacing. On every telemetry tick it
watches for the end of a lap. It records the lap time and the fuel burnt over the lap
into two parallel histories, provided the tank did not rise and the car is off pit road,
and the optional green-flag filter also has to admit the lap. From these histories it
takes outlier-filtered means, the fuel per lap and the average lap time. From those
means, the remaining session time, the usable tank capacity and two user settings (a
fuel multiplier and a lap offset), it projects four figures:

- the laps left;
- the fuel required to the finish;
- the number of stops;
- the fuel to add.

When the car crosses onto pit road during a race with auto-fuel on, it requests that
fuel amount from the simulator. The capacity is latched once from session metadata
(tank size times the maximum fill fraction). A button toggles auto-fuel.

The model has five modules:

- `Wrappers`: the `Option` type. It is used for the result of a metadata parse and for
  the fuel command a tick may emit.
- `Stats`: the outlier-filtered mean `GetAvg`, with the mean, sum, minimum and maximum
  it is proved against.
- `Projection`: `Math.Ceiling` and the four ceiling-based projections, each connected
  to its meaning by a lemma. For example, the estimated laps are the fewest whole laps
  that cover the remaining time.
- `Estimator`: the form's fuel state as a value. Next to it are the effect of each event
  on that state as a function (`Step`, `SessionInfo`, `Toggle`), runs of events, and
  the invariant and lemmas about them.
- `Calculator`: the class `FuelCalculator`. Its fields are the form's fields, and its
  handler methods assign them in the source's order and append to the histories in
  place. Each method is proved to produce exactly the state that the matching
  `Estimator` function describes, and to keep the invariant.

Arithmetic is on `real`. Every `(int)Math.Ceiling` of the source is `Projection.Ceil`,
defined as the negation of the floor of the negation. The source's band test
`avg - stdDev <= x <= avg + stdDev` uses a square-root deviation. The model uses the
squared test `(x - avg)^2 <= variance` instead, and `Stats.BandBySquare` proves the two
tests agree.

One case of the filtered mean deserves a note: a single value. Its deviation from the
mean is zero, so one might expect the filter to keep it and return that value. The code
instead divides the sum of squares by `Count() - 1 = 0` (Form1.cs:214), so the deviation
is NaN, every band comparison is false, nothing is kept, and `GetAvg` returns 0. The model follows the code (`Stats.Kept`,
`Stats.GetAvg`). As a result, the fuel per lap stays 0 until two laps are recorded, and
no pit command is possible before then.

## Model

| member | source | states |
|---|---|---|
| Stats.GetAvg | IrFuelCalc/Form1.cs:207-225 | No data, and likewise a single value, gives 0: with one value the 0/0 deviation keeps nothing |
| Stats.Kept | IrFuelCalc/Form1.cs:212-219 | The values within one sample standard deviation of the mean, in order, and none from a single value; its meaning is given by `KeptFacts` and `WithinBandMembers` |
| Stats.WithinBand | IrFuelCalc/Form1.cs:219 | The values, in order and with their multiplicity, whose squared deviation from the mean is at most the variance; its meaning is given by `WithinBandMembers`, and `BandBySquare` ties it to the source's square-root band |
| Stats.Positives | IrFuelCalc/Form1.cs:141 | The strictly positive lap times, in order and with their multiplicity; its meaning is given by `PositivesMembers` |
| Stats.KeptFacts | IrFuelCalc/Form1.cs:212-222 | The filter keeps nothing from one value, keeps at least one value from two or more (so the second `return 0` cannot fire then), and keeps only input values |
| Stats.GetAvgBounds | IrFuelCalc/Form1.cs:212-224 | With two or more values the result is the mean of the non-empty kept subset and lies between the input's minimum and maximum |
| Stats.BandBySquare | IrFuelCalc/Form1.cs:214-219 | For a non-negative deviation `sd`, `avg - sd <= x <= avg + sd` holds exactly when `(x - avg)^2 <= sd^2`, so the squared band keeps the same values as the source's |
| Stats.WithinBandMembers | IrFuelCalc/Form1.cs:219 | The band filter keeps exactly the inputs inside the band, and never more values than it was given |
| Stats.PositivesMembers | IrFuelCalc/Form1.cs:141 | The `l > 0.0` filter on lap times keeps exactly the positive values |
| Stats.GetAvgNonNegative | IrFuelCalc/Form1.cs:207-225 | The filtered mean of non-negative data is non-negative |
| Stats.GetAvgOfPositives | IrFuelCalc/Form1.cs:141 | The average lap time is 0 exactly when fewer than two positive lap times exist; otherwise it is positive |
| Stats.GetAvgConstant | IrFuelCalc/Form1.cs:207-225 | Two or more equal values average to that value |
| Stats.FuelScenario | IrFuelCalc/Form1.cs:207-225 | Usages 3.0, 3.2, 9.0 average to 3.1: the 9.0 outlier is dropped |
| Stats.LapTimeScenario | IrFuelCalc/Form1.cs:207-225 | Lap times 95, 96, 94 average to 95: nothing is dropped |
| Projection.Ceil | IrFuelCalc/Form1.cs:146 | The result is the least integer not below the argument: `x <= n < x + 1` |
| Projection.EstimatedLaps | IrFuelCalc/Form1.cs:146 | The remaining time over the average lap time, rounded up, and 0 with no lap time; `LapsCoverRemaining` and `LapsPositive` give its meaning |
| Projection.TotalFuelRequired | IrFuelCalc/Form1.cs:144-147 | The fuel per lap times the multiplier times the estimated laps plus the offset; `TotalFuelNonNegative` and `ForecastCovers` give its sign |
| Projection.EstimatedStops | IrFuelCalc/Form1.cs:148 | The fuel required over the capacity, rounded up, and 0 with no capacity; `StopsHoldTotal` and `StopsPositive` give its meaning |
| Projection.FuelPerStop | IrFuelCalc/Form1.cs:150 | The fuel required divided among the stops, and 0 with no stops; `SharesAddUp` gives its meaning |
| Projection.FuelToAdd | IrFuelCalc/Form1.cs:150-151 | The per-stop share less the current level, rounded up; `FuelToAddReachesShare` and `FuelToAddCoversTotal` give its meaning |
| Projection.LapsCoverRemaining | IrFuelCalc/Form1.cs:146 | With a positive average lap time, the estimated laps are the fewest whole laps whose total time covers the remaining time |
| Projection.LapsPositive | IrFuelCalc/Form1.cs:146 | Positive remaining time and lap time leave at least one lap |
| Projection.TotalFuelNonNegative | IrFuelCalc/Form1.cs:144-147 | These are never negative: the rate, the multiplier, and the laps plus offset. Then the fuel required is never negative either |
| Projection.StopsHoldTotal | IrFuelCalc/Form1.cs:148 | With a known capacity the estimated stops are the fewest full tanks holding the fuel required |
| Projection.StopsPositive | IrFuelCalc/Form1.cs:148 | Positive fuel required and capacity mean at least one stop |
| Projection.SharesAddUp | IrFuelCalc/Form1.cs:150 | The per-stop shares add up to the total |
| Projection.FuelToAddReachesShare | IrFuelCalc/Form1.cs:150-151 | The fuel to add is the fewest whole units that bring the current level up to the per-stop share |
| Projection.FuelToAddCoversTotal | IrFuelCalc/Form1.cs:148-151 | With at least one stop, filling to level plus fuel-to-add at each stop carries at least the total fuel required |
| Projection.ForecastCovers | IrFuelCalc/Form1.cs:144-151 | With positive inputs and a non-negative offset, the forecast is covering. This means at least one lap that covers the remaining time, positive fuel required, and at least one stop. It also means the stops' full tanks hold the total, and the fuel to add at each stop carries it |
| Projection.ProjectionExamples | IrFuelCalc/Form1.cs:148-151 | 55 units in a 30-unit tank take 2 stops; a 27.5 share from 10.2 in the tank needs 18 |
| Estimator.Initial | IrFuelCalc/Form1.cs:20-38 | The initial state satisfies the invariant: empty histories, on pit road, auto-fuel off, zero capacity (so the first tick requests session info) and zero lap and fuel cursors (so the first lap edge counts only if the tank reads at most 0) |
| Estimator.SessionInfo | IrFuelCalc/Form1.cs:81-107 | The state with its capacity replaced by `LatchCapacity`; `CapacityLatched` and `LatchedCapacityPersists` state what the latch promises |
| Estimator.CountLap | IrFuelCalc/Form1.cs:131-160 | A counted lap: record the lap if the green filter admits it, then recompute the last lap's usage, both averages and the forecast; `CountLapKeepsValid`, `CountedLapUsage` and `CountedLapForecast` give its meaning |
| Estimator.LapEdge | IrFuelCalc/Form1.cs:119-164 | A lap edge: move the lap and time cursors, count the lap if its fuel counts, and move the fuel cursor; `LapEdgeMovesCursors`, `HistoryGrowth` and `GreenOnlyExcludes` give its meaning |
| Estimator.AfterLap | IrFuelCalc/Form1.cs:118-165 | The lap-edge block applied exactly on a lap edge; `NoLapEdgeOnlyPitStatus` and `LapEdgeMovesCursors` give both sides |
| Estimator.PitEdge | IrFuelCalc/Form1.cs:167-193 | The new pit status and the optional fuel command on pit entry; `PitCommand` states its if-and-only-if and the amount |
| Estimator.Step | IrFuelCalc/Form1.cs:109-194 | One telemetry tick: the refresh request, the lap edge, then the pit edge; `RefreshRequest`, `HistoryGrowth`, `PitCommand`, `StepKeepsValid` and `RepeatedSampleIsIdle` give its meaning |
| Estimator.LatchCapacity | IrFuelCalc/Form1.cs:81-102 | A capacity above 0.01 in magnitude is kept, a failed parse of either value keeps the old capacity, and otherwise the capacity becomes tank times fraction |
| Estimator.CapacityLatched | IrFuelCalc/Form1.cs:83-84 | Once latched above 0.01, a later metadata update leaves the capacity unchanged (idempotence) |
| Estimator.Toggle | IrFuelCalc/Form1.cs:229 | The auto-fuel flag flips and every other field is unchanged |
| Estimator.ToggleTwice | IrFuelCalc/Form1.cs:229 | Two clicks restore the state |
| Estimator.CountLapKeepsValid | IrFuelCalc/Form1.cs:131-151 | A counted lap keeps the invariant: parallel histories, non-negative usages, averages that are the filtered means of the histories |
| Estimator.StepKeepsValid | IrFuelCalc/Form1.cs:109-194 | Every telemetry tick keeps the invariant |
| Estimator.ApplyKeepsValid | IrFuelCalc/Form1.cs:81-241 | Every event keeps the invariant |
| Estimator.RunKeepsValid | IrFuelCalc/Form1.cs:81-241 | Every run of events from a valid state keeps the invariant |
| Estimator.NoLapEdgeOnlyPitStatus | IrFuelCalc/Form1.cs:118-170 | Without a lap edge a tick changes only the pit status, which takes the sample's value |
| Estimator.LapEdgeMovesCursors | IrFuelCalc/Form1.cs:118-162 | On a lap edge the lap id, remaining time and fuel cursor take the sample's values, whether or not the lap is counted |
| Estimator.RepeatedSampleIsIdle | IrFuelCalc/Form1.cs:118-170 | Replaying the same sample right after it was processed changes nothing and emits no fuel command |
| Estimator.HistoryGrowth | IrFuelCalc/Form1.cs:118-138 | Both histories grow by exactly one entry (the lap time and the fuel burnt) exactly when the tick is a lap edge whose fuel counts and whose lap passes the green filter; otherwise both stay unchanged |
| Estimator.CountedLapUsage | IrFuelCalc/Form1.cs:131-140 | The last lap's usage of a counted lap is the fuel burnt since the last edge, and it is non-negative |
| Estimator.RefuelNeverRecorded | IrFuelCalc/Form1.cs:131 | A tick after which the fuel level rose leaves the histories, the averages and all projections unchanged |
| Estimator.GreenOnlyExcludes | IrFuelCalc/Form1.cs:134-162 | With the green filter on, a lap outside green-flag racing stays out of the histories, but it still moves the fuel cursor |
| Estimator.AveragesNonNegative | IrFuelCalc/Form1.cs:141-142 | Under the invariant the fuel rate and the average lap time are never negative |
| Estimator.CountedLapForecast | IrFuelCalc/Form1.cs:140-151 | After a counted lap with time left, positive averages, a known capacity, a positive multiplier and a non-negative offset, the new forecast covers the rest of the race |
| Estimator.PitCommand | IrFuelCalc/Form1.cs:167-193 | The pit status takes the sample's value. A command is emitted exactly on pit entry, and only with positive time, lap time and rate, in a race, with auto-fuel on. Its amount is the fuel to add for the current projection at the sample's fuel level |
| Estimator.PitCommandAgreesWithFuelToAdd | IrFuelCalc/Form1.cs:151-179 | A counted lap projects the fuel to add at the fuel level it leaves behind; on a following tick with no lap edge and an unchanged fuel level, a pit-entry command asks for exactly that projected amount |
| Estimator.PitEntryScenario | IrFuelCalc/Form1.cs:167-186 | 55 units over 2 stops with 10.2 in the tank makes pit entry request 18 units |
| Estimator.RefreshRequest | IrFuelCalc/Form1.cs:111-112 | Session info is requested exactly while the capacity is below 0.1, and a tick never changes the capacity |
| Estimator.RunExtendsHistory | IrFuelCalc/Form1.cs:136-137 | The histories are append-only: after any run of events the old histories are prefixes of the new ones |
| Estimator.LatchedCapacityPersists | IrFuelCalc/Form1.cs:83-111 | A latched capacity survives every later run of events |
| Calculator.FuelCalculator.constructor | IrFuelCalc/Form1.cs:20-38 | The fields start as the initialisers say, and the invariant holds |
| Calculator.FuelCalculator.OnSessionInfoUpdated | IrFuelCalc/Form1.cs:81-107 | The new state is the capacity latch applied to the old state, the invariant is kept, and a latched capacity is unchanged |
| Calculator.FuelCalculator.OnTelemetryUpdated | IrFuelCalc/Form1.cs:109-194 | The new fields, the session-info request and the fuel command are exactly one `Step` of the old state. It keeps the invariant, only appends to the lap history (at most one entry), and sets the pit status to the sample's value |
| Calculator.FuelCalculator.LapEdgeInPlace | IrFuelCalc/Form1.cs:118-165 | The fields become the lap-edge state of the old fields on a lap edge, and are unchanged otherwise |
| Calculator.FuelCalculator.RecordLapInPlace | IrFuelCalc/Form1.cs:133-138 | The histories are appended in place exactly as the lap filter says |
| Calculator.FuelCalculator.AverageInPlace | IrFuelCalc/Form1.cs:140-142 | The last lap's usage and both filtered means are updated from the histories |
| Calculator.FuelCalculator.ReforecastInPlace | IrFuelCalc/Form1.cs:144-151 | The four forecast fields are updated from the averages, remaining time and capacity |
| Calculator.FuelCalculator.PitEdgeInPlace | IrFuelCalc/Form1.cs:167-193 | The pit status and the returned command are the pit-edge result of the old fields |
| Calculator.FuelCalculator.OnEnableAutoFuelClick | IrFuelCalc/Form1.cs:227-241 | The auto-fuel flag flips, nothing else changes, and the invariant is kept |

## Left out

- The window's labels, tooltips, `UpdateLabels` and the button caption are not modelled. They display state and do not change it.
- NLog logging is not modelled.
- The SDK wrapper's calls are not performed. `RequestSessionInfoUpdate` becomes the tick's `refresh` result, and `PitCommands.AddFuel` becomes its `command` result. Reads of telemetry values become the fields of `Estimator.Sample`.
- Reading `config.ini` (`OpenConfig`) and writing it on close are not modelled. The three settings they fill (green-only, lap offset, fuel multiplier) arrive with each sample as `Estimator.Settings`.
- The session-info YAML lookup and `double.TryParse` are not modelled. Their results arrive as `Option<real>`: `None` stands for a failed parse.
- `(int)nudLapOffset.Value` is taken to be an integer setting already. The truncation of a fractional offset is not modelled.
- Projection.DivOrZero: a zero divisor gives 0. In IEEE arithmetic it gives an infinity or NaN, and `(int)` of such a value is unspecified in C#. So the projections differ from the source's values, which are undefined, in three cases: with no capacity; with no average lap time; and whenever the stop count is 0, that is whenever the fuel required lies in (-capacity, 0], where the per-stop share divides by zero (Form1.cs:148-151). The fuel required is 0 right after the first recorded lap, since one recorded usage leaves the fuel per lap at 0; it is negative with a negative multiplier, offset or remaining time, which the settings and samples admit.
- Projection.Ceil: the result is an unbounded `int`. The source's `(int)` cast of a ceiling beyond 32 bits is not modelled.
- Estimator.Sample: `lastLapTime` is the source's 32-bit `float` `LapLastLapTime` widened to a real. The rounding of that value is not modelled.
- IEEE rounding in general is not modelled: reals are exact, so sums and means here are the exact rational values.
- Estimator.PitCommand: the pit-entry fuel amount uses the projection from the most recent counted lap, as the source does. It is not recomputed from the current fuel rate at pit entry.
- Concurrency is not modelled: the model treats the events as a sequential run (`Estimator.Run`).
