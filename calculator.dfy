/**
  The fuel fields and event handlers of `Form1`, in the source's imperative form:
  the handlers assign the fields in the order the source does and append to the two
  history lists in place. Each handler is proved to produce exactly the state that
  the matching function of `Estimator` describes.
*/
module Calculator {
  import opened Wrappers
  import opened Stats
  import opened Projection
  import opened Estimator

  class FuelCalculator {
    var estimatedLaps: int
    var estimatedStops: int
    var fuelPerLap: real
    var fuelLastLap: real
    var totalFuelRequired: real
    var fuelToAdd: int
    var maxFuel: real
    var inPits: bool
    var lastFuelLevel: real
    var averageLapTime: real
    var lastLapCompleted: int
    var sessionRemainingTime: real
    var lapTimes: seq<real>
    var fuelUsages: seq<real>
    var autoFuel: bool

    /** The fields as one `Estimator.State` value. */
    function Snapshot(): State
      reads this
    {
      State(maxFuel, autoFuel, inPits, lastLapCompleted, lastFuelLevel, sessionRemainingTime,
            lapTimes, fuelUsages, averageLapTime, fuelPerLap, fuelLastLap,
            estimatedLaps, totalFuelRequired, estimatedStops, fuelToAdd)
    }

    ghost predicate Valid()
      reads this
    {
      Estimator.Valid(Snapshot())
    }

    /** The field initialisers of Form1.cs:20-38. */
    constructor ()
      ensures Snapshot() == Initial()
      ensures Valid()
    {
      estimatedLaps := 0;
      estimatedStops := 0;
      fuelPerLap := 0.0;
      fuelLastLap := 0.0;
      totalFuelRequired := 0.0;
      fuelToAdd := 0;
      maxFuel := 0.0;
      inPits := true;
      lastFuelLevel := 0.0;
      averageLapTime := 0.0;
      lastLapCompleted := 0;
      sessionRemainingTime := 0.0;
      lapTimes := [];
      fuelUsages := [];
      autoFuel := false;
    }

    /**
      The session-info handler: `tank` and `fraction` are the parsed
      `DriverCarFuelMaxLtr` and `DriverCarMaxFuelPct`, `None` when a parse fails.
    */
    method OnSessionInfoUpdated(tank: Option<real>, fraction: Option<real>)
      requires Valid()
      modifies this
      ensures Valid()
      ensures Snapshot() == SessionInfo(old(Snapshot()), tank, fraction)
      ensures Abs(old(maxFuel)) > 0.01 ==> maxFuel == old(maxFuel)
    {
      if Abs(maxFuel) > 0.01 {
        return;
      }
      if tank.None? {
        return;
      }
      if fraction.None? {
        return;
      }
      maxFuel := tank.value * fraction.value;
    }

    /**
      The telemetry handler. `refresh` is the call to `RequestSessionInfoUpdate` and
      `command` the call to `PitCommands.AddFuel`, returned instead of performed.
    */
    method OnTelemetryUpdated(s: Sample) returns (refresh: bool, command: Option<int>)
      requires Valid()
      modifies this
      ensures Valid()
      ensures Tick(Snapshot(), refresh, command) == Step(old(Snapshot()), s)
      ensures old(lapTimes) <= lapTimes && |lapTimes| <= |old(lapTimes)| + 1
      ensures inPits == s.onPitRoad
    {
      ghost var e0 := Snapshot();
      refresh := NeedsSessionInfo(maxFuel);
      LapEdgeInPlace(s);
      command := PitEdgeInPlace(s);
      HistoryGrowth(e0, s);
      StepKeepsValid(e0, s);
    }

    /** The lap-edge block of the telemetry handler (Form1.cs:118-164). */
    method LapEdgeInPlace(s: Sample)
      modifies this
      ensures Snapshot() == AfterLap(old(Snapshot()), s)
    {
      ghost var e0 := Snapshot();
      var lastLapId := s.lapCompleted;
      if lastLapId > 0 && lastLapCompleted != lastLapId {
        lastLapCompleted := lastLapId;
        sessionRemainingTime := s.sessionTimeRemain;
        ghost var e1 := Snapshot();
        assert e1 == e0.(lastLapCompleted := s.lapCompleted, sessionRemainingTime := s.sessionTimeRemain);
        var fuelLevel := s.fuelLevel;
        if lastFuelLevel >= fuelLevel && !s.onPitRoad {
          var fuelDelta := lastFuelLevel - fuelLevel;
          RecordLapInPlace(s);
          ghost var e2 := Snapshot();
          AverageInPlace(fuelDelta);
          ghost var e3 := Snapshot();
          ReforecastInPlace(s);
          assert Snapshot() == Reforecast(e3, s) == Reforecast(Average(e2, fuelDelta), s);
          assert e2 == RecordLap(e1, s) && fuelDelta == e1.lastFuelLevel - s.fuelLevel;
          assert Snapshot() == CountLap(e1, s);
        }
        lastFuelLevel := fuelLevel;
      }
    }

    /** Form1.cs:134-138: the filter and the two appends. */
    method RecordLapInPlace(s: Sample)
      modifies this
      ensures Snapshot() == RecordLap(old(Snapshot()), s)
    {
      if !s.settings.onlyGreen || (s.settings.onlyGreen && s.isRacing && s.greenFlag) {
        var fuelDelta := lastFuelLevel - s.fuelLevel;
        lapTimes := lapTimes + [s.lastLapTime];
        fuelUsages := fuelUsages + [fuelDelta];
      }
    }

    /** Form1.cs:140-142: the last lap's usage and the two filtered averages. */
    method AverageInPlace(fuelDelta: real)
      modifies this
      ensures Snapshot() == Average(old(Snapshot()), fuelDelta)
    {
      fuelLastLap := fuelDelta;
      averageLapTime := GetAvg(Positives(lapTimes));
      fuelPerLap := GetAvg(fuelUsages);
    }

    /** Form1.cs:144-151: the estimated laps, total fuel, stops and fuel to add. */
    method ReforecastInPlace(s: Sample)
      modifies this
      ensures Snapshot() == Reforecast(old(Snapshot()), s)
    {
      var forecast := Project(sessionRemainingTime, averageLapTime, fuelPerLap, s.settings.fuelMult,
                              s.settings.lapOffset, maxFuel, s.fuelLevel);
      estimatedLaps := forecast.estimatedLaps;
      totalFuelRequired := forecast.totalFuelRequired;
      estimatedStops := forecast.estimatedStops;
      fuelToAdd := forecast.fuelToAdd;
    }

    /** The pit-edge block of the telemetry handler (Form1.cs:167-193). */
    method PitEdgeInPlace(s: Sample) returns (command: Option<int>)
      modifies this
      ensures (Snapshot(), command) == PitEdge(old(Snapshot()), s)
    {
      command := None;
      var onPitRoad := s.onPitRoad;
      if inPits != onPitRoad {
        var oldInPits := inPits;
        inPits := onPitRoad;
        if !oldInPits {
          if sessionRemainingTime > 0.0 && averageLapTime > 0.0 && fuelPerLap > 0.0 && s.isRacing {
            var fuelThisStop := FuelToAdd(totalFuelRequired, estimatedStops, s.fuelLevel);
            if autoFuel {
              command := Some(fuelThisStop);
            }
          }
        }
      }
    }

    /** The auto-fuel button: flips the flag and nothing else. */
    method OnEnableAutoFuelClick()
      requires Valid()
      modifies this
      ensures Valid()
      ensures autoFuel == !old(autoFuel)
      ensures Snapshot() == Toggle(old(Snapshot()))
    {
      autoFuel := !autoFuel;
    }
  }
}
