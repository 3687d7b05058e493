/**
 * The records the pump-control front end exchanges: a command in which every field is optional,
 * a status in which every field is present, the status message pushed over the WebSocket, and
 * output profiles with the one built-in profile.
 */
module Types {
  import opened Common

  /** A partial command for one pump: an absent field means "leave unchanged". */
  datatype PumpCommand = PumpCommand(
    enable: Option<bool>,
    direction: Option<bool>,   // true = clockwise
    rpm: Option<int>,
    microstep: Option<int>)

  /** The full state of one pump. */
  datatype PumpStatus = PumpStatus(
    pumpId: int,
    enable: bool,
    direction: bool,
    rpm: int,
    microstep: int)

  /** A status update as the WebSocket declares it: the topic and a full status. */
  datatype WebSocketMessage = WebSocketMessage(topic: string, payload: PumpStatus)

  /** What a phase sets on one pump: enable, direction and speed, never the microstep. */
  datatype PhaseSetting = PhaseSetting(enable: bool, direction: bool, rpm: int)

  datatype Phase = Phase(pump1: PhaseSetting, pump2: PhaseSetting)

  datatype ProfileType = SquareWave | Custom

  datatype ProfileParameters = ProfileParameters(
    interval: real,            // seconds each phase lasts
    phases: seq<Phase>)

  datatype OutputProfile = OutputProfile(
    id: string,
    name: string,
    description: string,
    kind: ProfileType,
    parameters: ProfileParameters)

  const NoCommand := PumpCommand(None, None, None, None)

  /** A status seen as a command that sets every field it has. */
  function StatusCommand(s: PumpStatus): PumpCommand {
    PumpCommand(Some(s.enable), Some(s.direction), Some(s.rpm), Some(s.microstep))
  }

  /** A phase's setting handed on where a `PumpCommand` is expected: microstep stays absent. */
  function SettingCommand(s: PhaseSetting): PumpCommand {
    PumpCommand(Some(s.enable), Some(s.direction), Some(s.rpm), None)
  }

  function PhaseCount(p: OutputProfile): nat {
    |p.parameters.phases|
  }

  /** A profile the scheduler can run: at least one phase and a positive interval. */
  predicate WellFormed(p: OutputProfile) {
    PhaseCount(p) >= 1 && p.parameters.interval > 0.0
  }

  /** The one built-in profile: pump 1 on for a phase, then pump 2, five seconds each. */
  function DefaultProfiles(): seq<OutputProfile> {
    [OutputProfile(
      "alternating-square",
      "Alternating Square Wave",
      "Alternates between pumps with square wave pattern",
      SquareWave,
      ProfileParameters(
        5.0,
        [Phase(PhaseSetting(true, true, 100), PhaseSetting(false, true, 0)),
         Phase(PhaseSetting(false, true, 0), PhaseSetting(true, true, 100))]))]
  }

  /** In a phase exactly one pump runs, at `rpm`, and the other is off at speed 0. */
  predicate OnePumpAt(ph: Phase, rpm: int) {
    || (ph.pump1 == PhaseSetting(true, true, rpm) && ph.pump2 == PhaseSetting(false, true, 0))
    || (ph.pump2 == PhaseSetting(true, true, rpm) && ph.pump1 == PhaseSetting(false, true, 0))
  }

  /** The speed bound every service enforces. */
  predicate RpmInRange(rpm: int) { 0 <= rpm <= 200 }

  /**
   * The built-in profiles: one profile, interval 5 seconds, two phases; in each phase exactly
   * one pump runs at 100 rpm, the phases alternate which one, and every speed is within 0..200.
   */
  lemma DefaultProfilesShape()
    ensures |DefaultProfiles()| == 1
    ensures forall p :: p in DefaultProfiles() ==>
      && WellFormed(p)
      && p.parameters.interval == 5.0
      && PhaseCount(p) == 2
      && p.parameters.phases[0].pump1.enable && !p.parameters.phases[0].pump2.enable
      && p.parameters.phases[1].pump2.enable && !p.parameters.phases[1].pump1.enable
      && (forall ph :: ph in p.parameters.phases ==>
            OnePumpAt(ph, 100) && RpmInRange(ph.pump1.rpm) && RpmInRange(ph.pump2.rpm))
  {
  }
}
