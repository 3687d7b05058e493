/**
 * The output-profile scheduler (`frontend/src/components/OutputProfileControl.tsx`): a profile
 * is selected, started (its first phase is applied and a timer armed), advanced one phase per
 * timer tick, and stopped (both pumps disabled).
 *
 * The component's state is the fields of `ProfileScheduler`. The timer is `interval`: the
 * profile its callback captured, or `None` when no timer is live. The timer's period and the
 * browser's event loop are left out: a tick is a call of `Tick`. Every call of `onCommand` is
 * appended to `sent`.
 */
module ProfileControl {
  import opened Common
  import opened Types
  import opened Numbers

  /** One call `onCommand(pumpId, command)`. */
  datatype Dispatch = Dispatch(pumpId: int, command: PumpCommand)

  /** `applyPhase`: pump 1's setting, then pump 2's. */
  function PhaseDispatches(ph: Phase): (d: seq<Dispatch>)
    ensures |d| == 2 && d[0].pumpId == 1 && d[1].pumpId == 2
    ensures d[0].command.microstep.None? && d[1].command.microstep.None?
  {
    [Dispatch(1, SettingCommand(ph.pump1)), Dispatch(2, SettingCommand(ph.pump2))]
  }

  /** The commands `stopProfile` sends: `{enable: false}` to pump 1, then to pump 2. */
  function StopDispatches(): seq<Dispatch> {
    [Dispatch(1, PumpCommand(Some(false), None, None, None)),
     Dispatch(2, PumpCommand(Some(false), None, None, None))]
  }

  /** `DEFAULT_PROFILES.find(p => p.id === id)`: the first profile with that id. */
  function FindProfile(profiles: seq<OutputProfile>, id: string): (r: Option<OutputProfile>)
    ensures r.None? <==> forall i :: 0 <= i < |profiles| ==> profiles[i].id != id
    ensures r.Some? ==> r.value.id == id
    ensures r.Some? ==> exists i :: 0 <= i < |profiles| && profiles[i] == r.value
                          && (forall j :: 0 <= j < i ==> profiles[j].id != id)
    decreases |profiles|
  {
    if |profiles| == 0 then None
    else if profiles[0].id == id then Some(profiles[0])
    else
      var r := FindProfile(profiles[1..], id);
      if r.Some? then
        ghost var i :| 0 <= i < |profiles[1..]| && profiles[1..][i] == r.value
          && (forall j :: 0 <= j < i ==> profiles[1..][j].id != id);
        assert profiles[i + 1] == r.value;
        r
      else r
  }

  /** The phase after `prev`, in a profile of `count` phases. */
  function NextPhase(prev: nat, count: nat): (n: nat)
    requires count >= 1
    ensures n < count
  {
    (prev + 1) % count
  }

  /** The phase index `n` ticks after a start. */
  function PhaseAfter(n: nat, count: nat): (p: nat)
    requires count >= 1
    ensures p < count
  {
    if n == 0 then 0 else NextPhase(PhaseAfter(n - 1, count), count)
  }

  /** After `n` ticks the index is `n` modulo the number of phases. */
  lemma {:induction false} PhaseAfterIsMod(n: nat, count: nat)
    requires count >= 1
    ensures PhaseAfter(n, count) == n % count
  {
    if n > 0 {
      var m: nat := n - 1;
      PhaseAfterIsMod(m, count);
      ModSucc(m, count);
      assert PhaseAfter(n, count) == NextPhase(m % count, count) == (m % count + 1) % count;
    }
  }

  /** In the built-in profile the pumps take turns: pump 1 runs on even ticks, pump 2 on odd ones. */
  lemma DefaultProfileAlternates(n: nat)
    ensures var p := DefaultProfiles()[0];
      var d := PhaseDispatches(p.parameters.phases[PhaseAfter(n, PhaseCount(p))]);
      && (n % 2 == 0 ==> d[0].command.enable == Some(true) && d[1].command.enable == Some(false))
      && (n % 2 == 1 ==> d[0].command.enable == Some(false) && d[1].command.enable == Some(true))
  {
    PhaseAfterIsMod(n, 2);
  }

  class ProfileScheduler {
    var selectedProfile: Option<OutputProfile>
    var isRunning: bool
    var currentPhase: nat
    var interval: Option<OutputProfile>
    var sent: seq<Dispatch>

    /**
     * Profiles come from the built-in list only, a live timer belongs to a running profile,
     * and the phase index lies within the timer's profile.
     */
    predicate Valid()
      reads this
    {
      && (selectedProfile.Some? ==> selectedProfile.value in DefaultProfiles())
      && (interval.Some? ==> && interval.value in DefaultProfiles()
                             && isRunning
                             && currentPhase < PhaseCount(interval.value))
    }

    constructor ()
      ensures Valid()
      ensures selectedProfile == None && !isRunning && currentPhase == 0 && interval == None && sent == []
    {
      selectedProfile := None;
      isRunning := false;
      currentPhase := 0;
      interval := None;
      sent := [];
    }

    /** The profile menu is enabled while no profile runs. */
    predicate CanSelect()
      reads this
    {
      !isRunning
    }

    /** The start button is shown once a profile is selected, and enabled while none runs. */
    predicate CanStart()
      reads this
    {
      selectedProfile.Some? && !isRunning
    }

    /** The stop button is shown once a profile is selected, and enabled while one runs. */
    predicate CanStop()
      reads this
    {
      selectedProfile.Some? && isRunning
    }

    /** `handleProfileChange`: store the profile with that id (or none), then `stopProfile`. */
    method SelectProfile(id: string)
      requires Valid()
      modifies this
      ensures Valid()
      ensures selectedProfile == FindProfile(DefaultProfiles(), id)
      ensures !isRunning && interval == None && currentPhase == old(currentPhase)
      ensures sent == old(sent) + StopDispatches()
    {
      selectedProfile := FindProfile(DefaultProfiles(), id);
      Stop();
    }

    /** `startProfile`; without a selected profile it does nothing. */
    method Start()
      requires Valid()
      modifies this
      ensures Valid()
      ensures old(selectedProfile).None? ==>
        && isRunning == old(isRunning) && currentPhase == old(currentPhase)
        && interval == old(interval) && sent == old(sent)
      ensures old(selectedProfile).Some? ==>
        && isRunning && currentPhase == 0 && interval == old(selectedProfile)
        && sent == old(sent) + PhaseDispatches(old(selectedProfile).value.parameters.phases[0])
      ensures selectedProfile == old(selectedProfile)
    {
      if selectedProfile.None? {
        return;
      }
      var profile := selectedProfile.value;
      DefaultProfilesShape();
      isRunning := true;
      currentPhase := 0;
      sent := sent + PhaseDispatches(profile.parameters.phases[0]);
      // Arming a new timer changes `intervalId`, whose effect cleanup clears the previous one.
      interval := Some(profile);
    }

    /** One firing of the live timer: advance the phase and apply it. */
    method Tick()
      requires Valid()
      modifies this
      ensures Valid()
      ensures old(interval).None? ==> currentPhase == old(currentPhase) && sent == old(sent)
      ensures old(interval).Some? ==>
        var p := old(interval).value;
        && currentPhase == NextPhase(old(currentPhase), PhaseCount(p))
        && sent == old(sent) + PhaseDispatches(p.parameters.phases[currentPhase])
      ensures selectedProfile == old(selectedProfile) && isRunning == old(isRunning) && interval == old(interval)
    {
      if interval.None? {
        return;
      }
      var profile := interval.value;
      DefaultProfilesShape();
      var next := (currentPhase + 1) % |profile.parameters.phases|;
      sent := sent + PhaseDispatches(profile.parameters.phases[next]);
      currentPhase := next;
    }

    /** `stopProfile`: clear the timer if there is one, and disable both pumps, running or not. */
    method Stop()
      requires Valid()
      modifies this
      ensures Valid()
      ensures interval == None && !isRunning
      ensures sent == old(sent) + StopDispatches()
      ensures selectedProfile == old(selectedProfile) && currentPhase == old(currentPhase)
    {
      if interval.Some? {
        interval := None;
      }
      isRunning := false;
      sent := sent + StopDispatches();
    }

    /** The unmount cleanup: a live timer is cleared; nothing is sent. */
    method Unmount()
      requires Valid()
      modifies this
      ensures Valid()
      ensures interval == None
      ensures selectedProfile == old(selectedProfile) && isRunning == old(isRunning)
      ensures currentPhase == old(currentPhase) && sent == old(sent)
    {
      interval := None;
    }
  }

  /**
   * The controls never offer start and stop together: the menu and the start button while no
   * profile runs, the stop button while one does.
   */
  lemma ControlsExclusive(s: ProfileScheduler)
    ensures !(s.CanStart() && s.CanStop())
    ensures s.CanStart() ==> s.CanSelect()
    ensures s.CanStop() ==> !s.CanSelect()
  {
  }

  /**
   * Selecting the built-in profile, starting it and letting the timer fire three times sends
   * phase 0, 1, 0, 1 after the two disables of the selection; stopping then disables both pumps
   * and leaves the phase index where it was.
   */
  method ScenarioAlternatingSquare() returns (trace: seq<Dispatch>, phase: nat)
    ensures trace == StopDispatches()
      + PhaseDispatches(DefaultProfiles()[0].parameters.phases[0])
      + PhaseDispatches(DefaultProfiles()[0].parameters.phases[1])
      + PhaseDispatches(DefaultProfiles()[0].parameters.phases[0])
      + PhaseDispatches(DefaultProfiles()[0].parameters.phases[1])
      + StopDispatches()
    ensures phase == 1
  {
    var s := new ProfileScheduler();
    s.SelectProfile("alternating-square");
    assert s.selectedProfile == Some(DefaultProfiles()[0]);
    s.Start();
    s.Tick();
    s.Tick();
    s.Tick();
    s.Stop();
    trace := s.sent;
    phase := s.currentPhase;
  }

  /** A start without a selected profile sends nothing and changes nothing. */
  method ScenarioStartWithoutProfile() returns (trace: seq<Dispatch>, running: bool)
    ensures trace == [] && !running
  {
    var s := new ProfileScheduler();
    s.Start();
    trace := s.sent;
    running := s.isRunning;
  }
}
