/**
 * `MainViewModel`: the UI access surface. It caches the interlock flag,
 * mirrors the speed as an integer and as text, and drives the job service
 * through a start and a stop command.
 *
 * The interlock service enters as the value `IsAnyActive` reports when it is
 * read; the job service enters as whether its awaited call throws, and the
 * ghost field `jobCalls` records every call that reached it.
 */
module ViewModel {
  import opened Primitives
  import opened Configuration
  import opened Commands

  /** A call the view-model made on the job service. */
  datatype JobCall = StartCall(speed: Int32) | StopCall

  class MainViewModel {
    const settings: ControlSettings
    const startCmd: AsyncRelayCommand
    const stopCmd: AsyncRelayCommand

    var status: string
    var interlockActive: bool
    var speed: Int32
    var speedText: string

    ghost var jobCalls: seq<JobCall>

    /**
     * The object invariant: the status is one of the three state names, and
     * whenever the text names a speed the bounds allow, the integer is that
     * speed.
     */
    ghost predicate Valid()
      reads this
    {
      && startCmd != stopCmd
      && KnownState(status)
      && TextAgrees()
    }

    predicate TextAgrees()
      reads this
    {
      match TryParseInt(speedText)
      case Some(n) => settings.InRange(n) ==> speed == n
      case None => true
    }

    /** The speed lies within `[MinSpeed, MaxSpeed]`. */
    predicate SpeedInRange()
      reads this
    {
      settings.InRange(speed)
    }

    /**
     * `new MainViewModel(interlocks, jobs, clock, logger, settings)`, with
     * `interlockReading` the flag the interlock service reports and
     * `settingsArg` the optional settings object.
     */
    constructor (interlockReading: bool, settingsArg: Option<ControlSettings>)
      ensures Valid() && fresh(startCmd) && fresh(stopCmd)
      ensures settings == if settingsArg.Some? then settingsArg.value else Defaults()
      ensures status == Idle && interlockActive == interlockReading
      ensures speed == settings.defaultSpeed && speedText == ToDecimalString(settings.defaultSpeed)
      ensures !startCmd.isRunning && !stopCmd.isRunning && jobCalls == []
      ensures settings.Consistent() ==> SpeedInRange()
      ensures settingsArg.None? ==> SpeedInRange()
    {
      var chosen := if settingsArg.Some? then settingsArg.value else Defaults();
      settings := chosen;
      status := Idle;
      speed := chosen.defaultSpeed;
      speedText := ToDecimalString(chosen.defaultSpeed);
      startCmd := new AsyncRelayCommand();
      stopCmd := new AsyncRelayCommand();
      interlockActive := interlockReading;
      jobCalls := [];
      new;
      ParseFormatRoundTrip(speed);
    }

    /** The `Speed` setter: an out-of-range write is ignored. */
    method SetSpeed(value: Int32)
      requires Valid()
      modifies this`speed, this`speedText
      ensures Valid()
      ensures settings.InRange(value) ==> speed == value && speedText == ToDecimalString(value)
      ensures !settings.InRange(value) ==> speed == old(speed) && speedText == old(speedText)
      ensures TryParseInt(speedText) == Some(speed) || speedText == old(speedText)
      ensures old(SpeedInRange()) ==> SpeedInRange()
    {
      if settings.minSpeed <= value <= settings.maxSpeed {
        speed := value;
        speedText := ToDecimalString(value);
        ParseFormatRoundTrip(value);
      }
    }

    /**
     * The `SpeedText` setter: the text is always stored; the speed follows it
     * only when it parses to a speed within the bounds.
     */
    method SetSpeedText(value: string)
      requires Valid()
      modifies this`speed, this`speedText
      ensures Valid()
      ensures speedText == value
      ensures var parsed := TryParseInt(value);
        if parsed.Some? && settings.InRange(parsed.value) then speed == parsed.value else speed == old(speed)
      ensures old(SpeedInRange()) ==> SpeedInRange()
    {
      speedText := value;
      var parsed := TryParseInt(value);
      if parsed.Some? && settings.minSpeed <= parsed.value <= settings.maxSpeed {
        speed := parsed.value;
      }
    }

    /**
     * `StartAsync`: blocked while the interlock is active; otherwise asks the
     * job service to start at the current speed and records the outcome as
     * the status instead of rethrowing.
     */
    method StartAsync(serviceThrows: bool)
      requires Valid()
      modifies this`status, this`jobCalls
      ensures Valid()
      ensures interlockActive ==> status == old(status) && jobCalls == old(jobCalls)
      ensures !interlockActive ==> jobCalls == old(jobCalls) + [StartCall(speed)]
      ensures !interlockActive ==> status == if serviceThrows then Error else Running
    {
      if interlockActive {
        return;
      }
      jobCalls := jobCalls + [StartCall(speed)];
      if serviceThrows {
        status := Error;
      } else {
        status := Running;
      }
    }

    /** `StopAsync`: asks the job service to stop; a failure becomes `Error`. */
    method StopAsync(serviceThrows: bool)
      requires Valid()
      modifies this`status, this`jobCalls
      ensures Valid()
      ensures jobCalls == old(jobCalls) + [StopCall]
      ensures status == if serviceThrows then Error else Idle
    {
      jobCalls := jobCalls + [StopCall];
      if serviceThrows {
        status := Error;
      } else {
        status := Idle;
      }
    }

    /** `EStop`: back to `Idle` at once, without involving the job service. */
    method EStop()
      requires Valid()
      modifies this`status
      ensures Valid()
      ensures status == Idle
    {
      status := Idle;
    }

    /** `NotifyInterlocksChanged`: re-reads the interlock service's flag. */
    method NotifyInterlocksChanged(isAnyActive: bool)
      requires Valid()
      modifies this`interlockActive
      ensures Valid()
      ensures interlockActive == isAnyActive
    {
      interlockActive := isAnyActive;
    }

    /** `StartCmd.CanExecute`: guard `!InterlockActive`. */
    predicate StartCanExecute()
      reads this, startCmd
      ensures StartCanExecute() <==> !interlockActive && !startCmd.isRunning
    {
      startCmd.CanExecute(Some(!interlockActive))
    }

    /** `StopCmd.CanExecute`: guard `Status == "Running"`. */
    predicate StopCanExecute()
      reads this, stopCmd
      ensures StopCanExecute() <==> status == Running && !stopCmd.isRunning
    {
      stopCmd.CanExecute(Some(status == Running))
    }

    /** `EStopCmd.CanExecute`: a `RelayCommand` without a guard. */
    function EStopCanExecute(): (enabled: bool)
      ensures enabled
    {
      RelayCanExecute(None)
    }

    /**
     * `StartCmd.ExecuteAsync`: runs `StartAsync` under the command's
     * re-entrancy guard. `StartAsync` swallows the service's exception, so
     * the command never faults.
     */
    method ExecuteStartCmd(serviceThrows: bool) returns (r: Execution)
      requires Valid()
      modifies this`status, this`jobCalls, startCmd
      ensures Valid()
      ensures r.Skipped? <==> !old(StartCanExecute())
      ensures r.Skipped? ==> status == old(status) && jobCalls == old(jobCalls)
      ensures r.Skipped? ==> startCmd.isRunning == old(startCmd.isRunning)
      ensures !r.Skipped? ==> r.Completed? && !startCmd.isRunning
      ensures !r.Skipped? ==> jobCalls == old(jobCalls) + [StartCall(speed)]
      ensures !r.Skipped? ==> status == if serviceThrows then Error else Running
    {
      var entered := startCmd.Begin(Some(!interlockActive));
      if !entered {
        return Skipped;
      }
      StartAsync(serviceThrows);
      startCmd.Finish();
      r := Completed;
    }

    /** `StopCmd.ExecuteAsync`: runs `StopAsync` under the command's guard. */
    method ExecuteStopCmd(serviceThrows: bool) returns (r: Execution)
      requires Valid()
      modifies this`status, this`jobCalls, stopCmd
      ensures Valid()
      ensures r.Skipped? <==> !old(StopCanExecute())
      ensures r.Skipped? ==> status == old(status) && jobCalls == old(jobCalls)
      ensures r.Skipped? ==> stopCmd.isRunning == old(stopCmd.isRunning)
      ensures !r.Skipped? ==> r.Completed? && !stopCmd.isRunning
      ensures !r.Skipped? ==> jobCalls == old(jobCalls) + [StopCall]
      ensures !r.Skipped? ==> status == if serviceThrows then Error else Idle
    {
      var entered := stopCmd.Begin(Some(status == Running));
      if !entered {
        return Skipped;
      }
      StopAsync(serviceThrows);
      stopCmd.Finish();
      r := Completed;
    }
  }

  // -----------------------------------------------------------------------
  // The unit-test scenarios, stated as methods on the model

  /** Start is disabled while the interlock is active and enabled after a refresh clears it. */
  method InterlockRefreshScenario() returns (whileActive: bool, afterRefresh: bool)
    ensures !whileActive && afterRefresh
  {
    var vm := new MainViewModel(true, None);
    whileActive := vm.StartCanExecute();
    vm.NotifyInterlocksChanged(false);
    afterRefresh := vm.StartCanExecute();
  }

  /** An in-range speed is taken; 0 and 1001 are ignored. */
  method SpeedValidationScenario() returns (valid: int, tooLow: int, tooHigh: int)
    ensures valid == 500 && tooLow == 500 && tooHigh == 500
  {
    var vm := new MainViewModel(false, None);
    vm.SetSpeed(500);
    valid := vm.speed;
    vm.SetSpeed(0);
    tooLow := vm.speed;
    vm.SetSpeed(1001);
    tooHigh := vm.speed;
  }

  /** How the two texts of the unit test parse. */
  lemma TestTexts()
    ensures TryParseInt("250") == Some(250)
    ensures TryParseInt("invalid") == None
  {
    assert NatToString(2) == "2";
    assert NatToString(25) == "25";
    assert NatToString(250) == "250";
    ParseFormatRoundTrip(250);
    ParseRejectsForeignChar("invalid", 0);
  }

  /** "250" sets the speed; "invalid" leaves it alone. */
  method SpeedTextScenario() returns (afterNumber: int, afterWord: int)
    ensures afterNumber == 250 && afterWord == 250
  {
    var vm := new MainViewModel(false, None);
    TestTexts();
    vm.SetSpeedText("250");
    afterNumber := vm.speed;
    vm.SetSpeedText("invalid");
    afterWord := vm.speed;
  }

  /**
   * Start with the interlock clear calls the service once, with the speed
   * just set (300 under the default settings in the unit test; here any
   * speed the settings allow).
   */
  method StartScenario(settings: ControlSettings, requested: Int32) returns (status: string, ghost calls: seq<JobCall>)
    requires settings.InRange(requested)
    ensures status == Running && calls == [StartCall(requested)]
  {
    var vm := new MainViewModel(false, Some(settings));
    vm.SetSpeed(requested);
    vm.StartAsync(false);
    status, calls := vm.status, vm.jobCalls;
  }

  /** Start with the interlock active never reaches the service. */
  method BlockedStartScenario() returns (status: string, ghost calls: seq<JobCall>)
    ensures status == Idle && calls == []
  {
    var vm := new MainViewModel(true, None);
    vm.StartAsync(false);
    status, calls := vm.status, vm.jobCalls;
  }

  /** A service that throws on start leaves the view-model in `Error`. */
  method FaultedStartScenario() returns (status: string)
    ensures status == Error
  {
    var vm := new MainViewModel(false, None);
    vm.StartAsync(true);
    status := vm.status;
  }

  /**
   * Stop is enabled only once the job runs; stopping calls the service once
   * and returns to `Idle`.
   */
  method StopScenario() returns (enabledBefore: bool, enabledRunning: bool, status: string, ghost calls: seq<JobCall>)
    ensures !enabledBefore && enabledRunning && status == Idle
    ensures calls == [StartCall(100), StopCall]
  {
    var vm := new MainViewModel(false, None);
    enabledBefore := vm.StopCanExecute();
    vm.StartAsync(false);
    enabledRunning := vm.StopCanExecute();
    vm.StopAsync(false);
    status, calls := vm.status, vm.jobCalls;
  }

  /** Emergency stop of a running job gives `Idle`. */
  method EStopScenario() returns (status: string)
    ensures status == Idle
  {
    var vm := new MainViewModel(false, None);
    vm.StartAsync(false);
    vm.EStop();
    status := vm.status;
  }
}
