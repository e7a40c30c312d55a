/**
  The fuel-estimation state of `Form1` as a value, and the effect of each event on
  it as a function. `Calculator.FuelCalculator` keeps the same state in mutable
  fields and is proved to follow these functions; the lemmas here state what the
  source promises about them.
*/
module Estimator {
  import opened Wrappers
  import opened Stats
  import opened Projection

  /** The three user settings, read from the form's controls at each lap edge. */
  datatype Settings = Settings(onlyGreen: bool, lapOffset: int, fuelMult: real)

  /**
    One telemetry sample, with the settings in force when it arrives. `isRacing` is
    `SessionState == Racing`; `greenFlag` is `SessionFlags.Contains(Green)`.
  */
  datatype Sample = Sample(
    onPitRoad: bool,
    isRacing: bool,
    greenFlag: bool,
    lapCompleted: int,
    sessionTimeRemain: real,
    fuelLevel: real,
    lastLapTime: real,
    settings: Settings)

  /** The fields of `Form1` that the fuel logic reads and writes (Form1.cs:20-38). */
  datatype State = State(
    maxFuel: real,
    autoFuel: bool,
    inPits: bool,
    lastLapCompleted: int,
    lastFuelLevel: real,
    sessionRemainingTime: real,
    lapTimes: seq<real>,
    fuelUsages: seq<real>,
    averageLapTime: real,
    fuelPerLap: real,
    fuelLastLap: real,
    estimatedLaps: int,
    totalFuelRequired: real,
    estimatedStops: int,
    fuelToAdd: int)

  /** What one telemetry tick produces: the new state, whether session info was requested, the pit fuel command. */
  datatype Tick = Tick(next: State, refresh: bool, command: Option<int>)

  /** The field initialisers: everything zero or empty, `m_inPits` true, auto-fuel off. */
  function Initial(): (e: State)
    ensures Valid(e)
    ensures e.lapTimes == [] && e.fuelUsages == [] && e.inPits && !e.autoFuel
    ensures e.maxFuel == 0.0 && e.lastLapCompleted == 0 && e.lastFuelLevel == 0.0
  {
    State(0.0, false, true, 0, 0.0, 0.0, [], [], 0.0, 0.0, 0.0, 0, 0.0, 0, 0)
  }

  /**
    The invariant every event keeps: the two histories are parallel, every recorded
    usage is a consumption (never negative), the two averages are the filtered means
    of the histories (lap times only where positive), and the last lap's usage is
    never negative.
  */
  predicate Valid(e: State)
  {
    && |e.lapTimes| == |e.fuelUsages|
    && (forall i :: 0 <= i < |e.fuelUsages| ==> e.fuelUsages[i] >= 0.0)
    && e.averageLapTime == GetAvg(Positives(e.lapTimes))
    && e.fuelPerLap == GetAvg(e.fuelUsages)
    && e.fuelLastLap >= 0.0
  }

  // ---------------------------------------------------------------------------
  // Telemetry tick (Form1.cs:109-194)

  /** The tick asks for session info while the capacity is below 0.1 (Form1.cs:111-112). */
  predicate NeedsSessionInfo(maxFuel: real)
  {
    maxFuel < 0.1
  }

  /** A lap edge: a positive completed-lap id that differs from the one last seen (Form1.cs:118). */
  predicate IsLapEdge(lastLapCompleted: int, lapCompleted: int)
  {
    lapCompleted > 0 && lastLapCompleted != lapCompleted
  }

  /** The lap's fuel is used only if fuel did not rise and the car is off pit road (Form1.cs:131). */
  predicate CountsFuel(lastFuelLevel: real, s: Sample)
  {
    lastFuelLevel >= s.fuelLevel && !s.onPitRoad
  }

  /** The green-flag filter on entering the history, as written (Form1.cs:134). */
  predicate RecordsLap(s: Sample)
  {
    !s.settings.onlyGreen || (s.settings.onlyGreen && s.isRacing && s.greenFlag)
  }

  /** Form1.cs:134-138: append the lap time and the fuel burnt to both histories if the filter admits the lap. */
  function RecordLap(e: State, s: Sample): State
  {
    if RecordsLap(s)
    then e.(lapTimes := e.lapTimes + [s.lastLapTime], fuelUsages := e.fuelUsages + [e.lastFuelLevel - s.fuelLevel])
    else e
  }

  /** Form1.cs:140-142: the last lap's usage and both filtered averages, from the histories. */
  function Average(e: State, fuelDelta: real): State
  {
    e.(fuelLastLap := fuelDelta, averageLapTime := GetAvg(Positives(e.lapTimes)), fuelPerLap := GetAvg(e.fuelUsages))
  }

  /** Form1.cs:144-151: the forecast fields, from the averages, the remaining time and the capacity. */
  function Reforecast(e: State, s: Sample): State
  {
    var f := Project(e.sessionRemainingTime, e.averageLapTime, e.fuelPerLap, s.settings.fuelMult,
                     s.settings.lapOffset, e.maxFuel, s.fuelLevel);
    e.(estimatedLaps := f.estimatedLaps, totalFuelRequired := f.totalFuelRequired,
       estimatedStops := f.estimatedStops, fuelToAdd := f.fuelToAdd)
  }

  /** Form1.cs:140-151: the averages, then the forecast. */
  function Recompute(e: State, s: Sample, fuelDelta: real): State
  {
    Reforecast(Average(e, fuelDelta), s)
  }

  /** The counted-lap branch (Form1.cs:131-160): record the lap if admitted, then recompute. */
  function CountLap(e: State, s: Sample): State
  {
    Recompute(RecordLap(e, s), s, e.lastFuelLevel - s.fuelLevel)
  }

  /** The lap-edge block (Form1.cs:119-164): move the cursors, and count the lap if its fuel counts. */
  function LapEdge(e: State, s: Sample): State
  {
    var e1 := e.(lastLapCompleted := s.lapCompleted, sessionRemainingTime := s.sessionTimeRemain);
    var e2 := if CountsFuel(e.lastFuelLevel, s) then CountLap(e1, s) else e1;
    e2.(lastFuelLevel := s.fuelLevel)
  }

  /** The state after the lap-edge test of Form1.cs:118. */
  function AfterLap(e: State, s: Sample): State
  {
    if IsLapEdge(e.lastLapCompleted, s.lapCompleted) then LapEdge(e, s) else e
  }

  /** Whether pit entry has a fuel amount to compute (Form1.cs:177). */
  predicate PitFuelReady(e: State, s: Sample)
  {
    e.sessionRemainingTime > 0.0 && e.averageLapTime > 0.0 && e.fuelPerLap > 0.0 && s.isRacing
  }

  /** The pit-edge block (Form1.cs:167-193): record the new pit status; on entry maybe emit the fuel amount. */
  function PitEdge(e: State, s: Sample): (State, Option<int>)
  {
    if e.inPits != s.onPitRoad then
      var command :=
        if !e.inPits && PitFuelReady(e, s) && e.autoFuel
        then Some(FuelToAdd(e.totalFuelRequired, e.estimatedStops, s.fuelLevel))
        else None;
      (e.(inPits := s.onPitRoad), command)
    else
      (e, None)
  }

  /** One telemetry tick: the refresh request, then the lap edge, then the pit edge. */
  function Step(e: State, s: Sample): Tick
  {
    var (e2, command) := PitEdge(AfterLap(e, s), s);
    Tick(e2, NeedsSessionInfo(e.maxFuel), command)
  }

  // ---------------------------------------------------------------------------
  // Capacity latch (Form1.cs:81-107) and auto-fuel toggle (Form1.cs:227-241)

  function Abs(x: real): real
  {
    if x < 0.0 then -x else x
  }

  /**
    The capacity after a session-info event. `tank` and `fraction` are the results of
    `double.TryParse` on the two metadata strings, `None` when a parse fails.
  */
  function LatchCapacity(maxFuel: real, tank: Option<real>, fraction: Option<real>): (r: real)
    ensures Abs(maxFuel) > 0.01 ==> r == maxFuel
    ensures tank.None? || fraction.None? ==> r == maxFuel
    ensures Abs(maxFuel) <= 0.01 && tank.Some? && fraction.Some? ==> r == tank.value * fraction.value
  {
    if Abs(maxFuel) > 0.01 then maxFuel
    else if tank.None? then maxFuel
    else if fraction.None? then maxFuel
    else tank.value * fraction.value
  }

  function SessionInfo(e: State, tank: Option<real>, fraction: Option<real>): State
  {
    e.(maxFuel := LatchCapacity(e.maxFuel, tank, fraction))
  }

  function Toggle(e: State): (r: State)
    ensures r.autoFuel != e.autoFuel
    ensures r.(autoFuel := e.autoFuel) == e
  {
    e.(autoFuel := !e.autoFuel)
  }

  // ---------------------------------------------------------------------------
  // Runs of events

  datatype Event =
    | Telemetry(sample: Sample)
    | SessionInfoUpdated(tank: Option<real>, fraction: Option<real>)
    | EnableAutoFuelClicked

  function Apply(e: State, ev: Event): State
  {
    match ev
    case Telemetry(s) => Step(e, s).next
    case SessionInfoUpdated(tank, fraction) => SessionInfo(e, tank, fraction)
    case EnableAutoFuelClicked => Toggle(e)
  }

  function Run(e: State, evs: seq<Event>): (r: State)
    decreases |evs|
  {
    if evs == [] then e else Run(Apply(e, evs[0]), evs[1..])
  }

  // ---------------------------------------------------------------------------
  // Lemmas: the invariant

  /** A counted lap keeps the invariant: its usage is the (non-negative) fuel burnt, and the averages are recomputed. */
  lemma CountLapKeepsValid(e: State, s: Sample)
    requires Valid(e) && CountsFuel(e.lastFuelLevel, s)
    ensures Valid(CountLap(e, s))
  {
    var r := CountLap(e, s);
    if RecordsLap(s) {
      assert forall i :: 0 <= i < |e.fuelUsages| ==> r.fuelUsages[i] == e.fuelUsages[i];
    }
  }

  /** Every telemetry tick keeps the invariant. */
  lemma StepKeepsValid(e: State, s: Sample)
    requires Valid(e)
    ensures Valid(Step(e, s).next)
  {
    if IsLapEdge(e.lastLapCompleted, s.lapCompleted) && CountsFuel(e.lastFuelLevel, s) {
      CountLapKeepsValid(e.(lastLapCompleted := s.lapCompleted, sessionRemainingTime := s.sessionTimeRemain), s);
    }
  }

  /** Every event keeps the invariant. */
  lemma ApplyKeepsValid(e: State, ev: Event)
    requires Valid(e)
    ensures Valid(Apply(e, ev))
  {
    if ev.Telemetry? {
      StepKeepsValid(e, ev.sample);
    }
  }

  // ---------------------------------------------------------------------------
  // Lemmas: the lap edge

  /**
    A tick changes the lap cursor, the remaining time, the fuel cursor, the histories
    and the projections only on a lap edge; without one, only the pit status changes.
  */
  lemma NoLapEdgeOnlyPitStatus(e: State, s: Sample)
    requires !IsLapEdge(e.lastLapCompleted, s.lapCompleted)
    ensures Step(e, s).next == e.(inPits := s.onPitRoad)
  {
  }

  /** On a lap edge the lap and fuel cursors take the sample's values, counted or not. */
  lemma LapEdgeMovesCursors(e: State, s: Sample)
    requires IsLapEdge(e.lastLapCompleted, s.lapCompleted)
    ensures Step(e, s).next.lastLapCompleted == s.lapCompleted
    ensures Step(e, s).next.lastFuelLevel == s.fuelLevel
    ensures Step(e, s).next.sessionRemainingTime == s.sessionTimeRemain
  {
  }

  /** Repeating a sample right after it was processed changes nothing and emits no command. */
  lemma RepeatedSampleIsIdle(e: State, s: Sample)
    ensures var t := Step(e, s); Step(t.next, s) == Tick(t.next, t.refresh, None)
  {
    var t := Step(e, s);
    assert !IsLapEdge(t.next.lastLapCompleted, s.lapCompleted);
    assert t.next.inPits == s.onPitRoad;
  }

  /**
    The histories grow together by exactly one entry, the sample's lap time and the
    fuel burnt since the last lap edge, exactly when the tick is a lap edge whose fuel
    counts and whose lap passes the green-flag filter; otherwise they are unchanged.
  */
  lemma HistoryGrowth(e: State, s: Sample)
    ensures var n := Step(e, s).next;
      if IsLapEdge(e.lastLapCompleted, s.lapCompleted) && CountsFuel(e.lastFuelLevel, s) && RecordsLap(s)
      then n.lapTimes == e.lapTimes + [s.lastLapTime] && n.fuelUsages == e.fuelUsages + [e.lastFuelLevel - s.fuelLevel]
      else n.lapTimes == e.lapTimes && n.fuelUsages == e.fuelUsages
  {
    if IsLapEdge(e.lastLapCompleted, s.lapCompleted) {
      var e1 := e.(lastLapCompleted := s.lapCompleted, sessionRemainingTime := s.sessionTimeRemain);
      if CountsFuel(e.lastFuelLevel, s) {
        var c := CountLap(e1, s);
        assert LapEdge(e, s) == c.(lastFuelLevel := s.fuelLevel);
      } else {
        assert LapEdge(e, s) == e1.(lastFuelLevel := s.fuelLevel);
      }
    }
  }

  /** A recorded usage and the last lap's usage are the fuel burnt over the lap, never negative. */
  lemma CountedLapUsage(e: State, s: Sample)
    requires IsLapEdge(e.lastLapCompleted, s.lapCompleted) && CountsFuel(e.lastFuelLevel, s)
    ensures Step(e, s).next.fuelLastLap == e.lastFuelLevel - s.fuelLevel >= 0.0
  {
  }

  /** A lap over which fuel rose (a refuel or a telemetry reset) leaves history and projections as they were. */
  lemma RefuelNeverRecorded(e: State, s: Sample)
    requires s.fuelLevel > e.lastFuelLevel
    ensures var n := Step(e, s).next;
      n.lapTimes == e.lapTimes && n.fuelUsages == e.fuelUsages &&
      n.fuelPerLap == e.fuelPerLap && n.averageLapTime == e.averageLapTime &&
      n.fuelLastLap == e.fuelLastLap && n.estimatedLaps == e.estimatedLaps &&
      n.totalFuelRequired == e.totalFuelRequired && n.estimatedStops == e.estimatedStops &&
      n.fuelToAdd == e.fuelToAdd
  {
  }

  /** With the green-flag filter on, a lap outside green-flag racing stays out of the history but moves the fuel cursor. */
  lemma GreenOnlyExcludes(e: State, s: Sample)
    requires s.settings.onlyGreen && !(s.isRacing && s.greenFlag)
    requires IsLapEdge(e.lastLapCompleted, s.lapCompleted)
    ensures Step(e, s).next.lapTimes == e.lapTimes
    ensures Step(e, s).next.fuelUsages == e.fuelUsages
    ensures Step(e, s).next.lastFuelLevel == s.fuelLevel
  {
  }

  /**
    After a counted lap with time left, positive averages, a known capacity, a positive
    multiplier and a non-negative offset, the new forecast covers the rest of the race
    as `Projection.ForecastCovers` describes, at the sample's fuel level.
  */
  lemma CountedLapForecast(e: State, s: Sample)
    requires IsLapEdge(e.lastLapCompleted, s.lapCompleted) && CountsFuel(e.lastFuelLevel, s)
    requires s.sessionTimeRemain > 0.0 && e.maxFuel > 0.0
    requires s.settings.fuelMult > 0.0 && s.settings.lapOffset >= 0
    requires Step(e, s).next.averageLapTime > 0.0 && Step(e, s).next.fuelPerLap > 0.0
    ensures var n := Step(e, s).next;
      && n.estimatedLaps >= 1
      && s.sessionTimeRemain <= n.estimatedLaps as real * n.averageLapTime
      && n.totalFuelRequired > 0.0
      && n.estimatedStops >= 1
      && n.totalFuelRequired <= n.estimatedStops as real * n.maxFuel
      && (s.fuelLevel + n.fuelToAdd as real) * n.estimatedStops as real >= n.totalFuelRequired
  {
    var n := Step(e, s).next;
    var e1 := e.(lastLapCompleted := s.lapCompleted, sessionRemainingTime := s.sessionTimeRemain);
    var a := Average(RecordLap(e1, s), e.lastFuelLevel - s.fuelLevel);
    var c := Reforecast(a, s);
    assert LapEdge(e, s) == c.(lastFuelLevel := s.fuelLevel);
    assert n == PitEdge(c.(lastFuelLevel := s.fuelLevel), s).0;
    assert n.averageLapTime == a.averageLapTime && n.fuelPerLap == a.fuelPerLap;
    var f := Project(s.sessionTimeRemain, a.averageLapTime, a.fuelPerLap, s.settings.fuelMult,
                     s.settings.lapOffset, e.maxFuel, s.fuelLevel);
    assert n.estimatedLaps == f.estimatedLaps && n.totalFuelRequired == f.totalFuelRequired;
    assert n.estimatedStops == f.estimatedStops && n.fuelToAdd == f.fuelToAdd;
    ForecastCovers(s.sessionTimeRemain, n.averageLapTime, n.fuelPerLap, s.settings.fuelMult,
                   s.settings.lapOffset, e.maxFuel, s.fuelLevel);
  }

  /** Under the invariant the fuel rate and average lap time are never negative. */
  lemma AveragesNonNegative(e: State)
    requires Valid(e)
    ensures e.fuelPerLap >= 0.0 && e.averageLapTime >= 0.0
  {
    GetAvgNonNegative(e.fuelUsages);
    GetAvgOfPositives(e.lapTimes);
  }

  // ---------------------------------------------------------------------------
  // Lemmas: the pit edge

  /**
    The pit status always takes the sample's value, and a command is emitted exactly
    on an off-road to on-road transition with positive remaining time, lap time and
    fuel rate, in a race, with auto-fuel on; its amount is the fuel to add for the
    projection in force after this tick's lap edge, at the sample's fuel level.
  */
  lemma PitCommand(e: State, s: Sample)
    ensures var t := Step(e, s);
      && t.next.inPits == s.onPitRoad
      && (t.command.Some? <==>
           !e.inPits && s.onPitRoad &&
           t.next.sessionRemainingTime > 0.0 && t.next.averageLapTime > 0.0 && t.next.fuelPerLap > 0.0 &&
           s.isRacing && t.next.autoFuel)
      && (t.command.Some? ==>
           t.command.value == FuelToAdd(t.next.totalFuelRequired, t.next.estimatedStops, s.fuelLevel))
  {
  }

  /**
    A counted lap projects the fuel to add at the fuel level it leaves behind. If the
    next tick is no lap edge and the fuel level has not moved, a pit-entry command on
    that tick asks for exactly that projected amount. (A counted lap needs the car off
    pit road and a command needs it on, so the two cannot fall on one tick.)
  */
  lemma PitCommandAgreesWithFuelToAdd(e: State, s1: Sample, s2: Sample)
    requires IsLapEdge(e.lastLapCompleted, s1.lapCompleted) && CountsFuel(e.lastFuelLevel, s1)
    requires !IsLapEdge(s1.lapCompleted, s2.lapCompleted) && s2.fuelLevel == s1.fuelLevel
    ensures var n := Step(e, s1).next;
      n.fuelToAdd == FuelToAdd(n.totalFuelRequired, n.estimatedStops, n.lastFuelLevel)
    ensures var n := Step(e, s1).next; var t := Step(n, s2);
      t.command.Some? ==> t.command.value == n.fuelToAdd
  {
  }

  /**
    A worked pit entry: 55 units still needed over 2 stops, 10.2 in the tank and
    auto-fuel on, so crossing onto pit road in a race asks for 18 units.
  */
  lemma PitEntryScenario()
    ensures var e := State(30.0, true, false, 5, 10.2, 600.0, [95.0, 96.0], [3.0, 3.2], 95.5, 3.1, 3.2, 7, 55.0, 2, 18);
      var s := Sample(true, true, true, 5, 590.0, 10.2, 95.0, Settings(false, 0, 1.0));
      Step(e, s).command == Some(18) && Step(e, s).next == e.(inPits := true)
  {
    ProjectionExamples();
  }

  /** A tick requests session info exactly while the capacity is below 0.1, and never changes the capacity. */
  lemma RefreshRequest(e: State, s: Sample)
    ensures Step(e, s).refresh <==> e.maxFuel < 0.1
    ensures Step(e, s).next.maxFuel == e.maxFuel
  {
  }

  // ---------------------------------------------------------------------------
  // Lemmas: capacity and toggle

  /** Once the capacity exceeds 0.01 in magnitude, later metadata is ignored. */
  lemma CapacityLatched(maxFuel: real, tank: Option<real>, fraction: Option<real>, tank': Option<real>, fraction': Option<real>)
    requires Abs(LatchCapacity(maxFuel, tank, fraction)) > 0.01
    ensures LatchCapacity(LatchCapacity(maxFuel, tank, fraction), tank', fraction') == LatchCapacity(maxFuel, tank, fraction)
  {
  }

  /** Toggling auto-fuel twice restores the state, projections included. */
  lemma ToggleTwice(e: State)
    ensures Toggle(Toggle(e)) == e
  {
  }

  // ---------------------------------------------------------------------------
  // Lemmas: runs

  /** The history is append-only: whatever was recorded stays, in order, after any run of events. */
  lemma {:induction false} RunExtendsHistory(e: State, evs: seq<Event>)
    ensures e.lapTimes <= Run(e, evs).lapTimes
    ensures e.fuelUsages <= Run(e, evs).fuelUsages
    decreases |evs|
  {
    if evs != [] {
      var e1 := Apply(e, evs[0]);
      if evs[0].Telemetry? {
        HistoryGrowth(e, evs[0].sample);
      }
      RunExtendsHistory(e1, evs[1..]);
    }
  }

  /** Every run of events keeps the invariant, and so parallel histories of non-negative usages. */
  lemma {:induction false} RunKeepsValid(e: State, evs: seq<Event>)
    requires Valid(e)
    ensures Valid(Run(e, evs))
    decreases |evs|
  {
    if evs != [] {
      ApplyKeepsValid(e, evs[0]);
      RunKeepsValid(Apply(e, evs[0]), evs[1..]);
    }
  }

  /** The latched capacity survives every later event. */
  lemma {:induction false} LatchedCapacityPersists(e: State, evs: seq<Event>)
    requires Abs(e.maxFuel) > 0.01
    ensures Run(e, evs).maxFuel == e.maxFuel
    decreases |evs|
  {
    if evs != [] {
      var e1 := Apply(e, evs[0]);
      assert e1.maxFuel == e.maxFuel;
      LatchedCapacityPersists(e1, evs[1..]);
    }
  }
}
