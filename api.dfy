/**
 * The HTTP access surface: the in-memory job and interlock services and the
 * three routes `POST /api/jobs/start`, `POST /api/jobs/stop` and
 * `GET /api/status`. Each route is a method over the process-wide service
 * objects; the start route's decision is the function `StartGuard`.
 */
module Api {
  import opened Primitives
  import Configuration

  /** The speed range the start route accepts. */
  const MinSpeed: int := 1
  const MaxSpeed: int := 1000

  /** `InMemoryInterlocks`: one settable flag. */
  class InMemoryInterlocks {
    var isAnyActive: bool

    constructor ()
      ensures !isAnyActive
    {
      isAnyActive := false;
    }

    method SetActive(active: bool)
      modifies this
      ensures isAnyActive == active
    {
      isAnyActive := active;
    }
  }

  /** `InMemoryJobs`: the job state and speed; it accepts any speed. */
  class InMemoryJobs {
    var state: string
    var speed: Int32

    constructor ()
      ensures state == Idle && speed == 0
      ensures RouteInvariant()
    {
      state := Idle;
      speed := 0;
    }

    /**
     * What the routes keep true of the job: it is idle at speed 0, or it runs
     * at a speed the start route accepts.
     */
    predicate RouteInvariant()
      reads this
    {
      || (state == Idle && speed == 0)
      || (state == Running && MinSpeed <= speed <= MaxSpeed)
    }

    method StartAsync(newSpeed: Int32)
      modifies this
      ensures state == Running && speed == newSpeed
    {
      state := Running;
      speed := newSpeed;
    }

    method StopAsync()
      modifies this
      ensures state == Idle && speed == 0
      ensures RouteInvariant()
    {
      state := Idle;
      speed := 0;
    }
  }

  /** The JSON bodies the routes write. */
  datatype Body =
    | StateAndSpeed(state: string, speed: int)          // {"state": .., "speed": ..}
    | StateOnly(state: string)                          // {"state": ..}
    | Problem(error: string, message: Option<string>)   // {"error": .., "message": ..}

  datatype Response = Response(statusCode: int, body: Body)

  const InvalidSpeed: Response :=
    Response(400, Problem("invalid_speed", Some("Speed must be between 1 and 1000")))
  const InterlockActive: Response :=
    Response(400, Problem("interlock_active", None))

  /**
   * The start route's checks, in their order: the range first, then the
   * interlock. `Some(r)` is the 400 response that ends the request, `None`
   * lets it through to the job service.
   */
  function StartGuard(speed: int, interlockActive: bool): (rejection: Option<Response>)
    ensures rejection.None? <==> MinSpeed <= speed <= MaxSpeed && !interlockActive
    ensures !(MinSpeed <= speed <= MaxSpeed) ==> rejection == Some(InvalidSpeed)
    ensures MinSpeed <= speed <= MaxSpeed && interlockActive ==> rejection == Some(InterlockActive)
    ensures rejection.Some? ==> rejection.value.statusCode == 400
  {
    if speed < 1 || speed > 1000 then Some(InvalidSpeed)
    else if interlockActive then Some(InterlockActive)
    else None
  }

  /**
   * With default settings the view-model accepts exactly the speeds the
   * start route lets through when the interlock is clear.
   */
  lemma DefaultBoundsMatchRoute(v: int)
    ensures Configuration.Defaults().InRange(v) <==> StartGuard(v, false).None?
  {
  }

  /** `POST /api/jobs/start?speed=..` */
  method PostStart(jobs: InMemoryJobs, interlocks: InMemoryInterlocks, speed: Int32) returns (response: Response)
    modifies jobs
    ensures var rejection := StartGuard(speed, interlocks.isAnyActive);
      rejection.Some? ==> response == rejection.value && jobs.state == old(jobs.state) && jobs.speed == old(jobs.speed)
    ensures StartGuard(speed, interlocks.isAnyActive).None? ==>
      response == Response(200, StateAndSpeed(Running, speed)) && jobs.state == Running && jobs.speed == speed
    ensures old(jobs.RouteInvariant()) ==> jobs.RouteInvariant()
  {
    var rejection := StartGuard(speed, interlocks.isAnyActive);
    if rejection.Some? {
      return rejection.value;
    }
    jobs.StartAsync(speed);
    response := Response(200, StateAndSpeed(Running, speed));
  }

  /** `POST /api/jobs/stop` */
  method PostStop(jobs: InMemoryJobs) returns (response: Response)
    modifies jobs
    ensures response == Response(200, StateOnly(Idle))
    ensures jobs.state == Idle && jobs.speed == 0
    ensures jobs.RouteInvariant()
  {
    jobs.StopAsync();
    response := Response(200, StateOnly(Idle));
  }

  /** `GET /api/status`: reports the job as it is, changing nothing. */
  method GetStatus(jobs: InMemoryJobs) returns (response: Response)
    ensures response.statusCode == 200
    ensures response.body == StateAndSpeed(jobs.state, jobs.speed)
    ensures jobs.RouteInvariant() ==> KnownState(response.body.state)
  {
    response := Response(200, StateAndSpeed(jobs.state, jobs.speed));
  }

  // -----------------------------------------------------------------------
  // The component-test scenarios, stated as methods on the model

  /** A valid start runs the job at that speed, and status reports it. */
  method StartScenario() returns (started: Response, status: Response)
    ensures started == Response(200, StateAndSpeed(Running, 120))
    ensures status == Response(200, StateAndSpeed(Running, 120))
  {
    var jobs := new InMemoryJobs();
    var interlocks := new InMemoryInterlocks();
    started := PostStart(jobs, interlocks, 120);
    status := GetStatus(jobs);
  }

  /** 0 and 1001 are refused as invalid speeds, even with the interlock active, and the job stays idle. */
  method RejectedStartScenario() returns (tooLow: Response, tooHigh: Response, lockedTooHigh: Response, status: Response)
    ensures tooLow == InvalidSpeed && tooHigh == InvalidSpeed && lockedTooHigh == InvalidSpeed
    ensures status == Response(200, StateAndSpeed(Idle, 0))
  {
    var jobs := new InMemoryJobs();
    var interlocks := new InMemoryInterlocks();
    tooLow := PostStart(jobs, interlocks, 0);
    tooHigh := PostStart(jobs, interlocks, 1001);
    interlocks.SetActive(true);
    lockedTooHigh := PostStart(jobs, interlocks, 1001);
    status := GetStatus(jobs);
  }

  /** A valid start while the interlock is active is refused and records nothing. */
  method InterlockScenario() returns (blocked: Response, status: Response)
    ensures blocked == InterlockActive
    ensures status == Response(200, StateAndSpeed(Idle, 0))
  {
    var jobs := new InMemoryJobs();
    var interlocks := new InMemoryInterlocks();
    interlocks.SetActive(true);
    blocked := PostStart(jobs, interlocks, 50);
    status := GetStatus(jobs);
  }

  /** Stop after a run answers `Idle`; a second stop answers and leaves the same. */
  method StopScenario() returns (first: Response, second: Response, status: Response)
    ensures first == second == Response(200, StateOnly(Idle))
    ensures status == Response(200, StateAndSpeed(Idle, 0))
  {
    var jobs := new InMemoryJobs();
    var interlocks := new InMemoryInterlocks();
    var _ := PostStart(jobs, interlocks, 120);
    first := PostStop(jobs);
    second := PostStop(jobs);
    status := GetStatus(jobs);
  }

  /**
   * The route invariant rests on the start route's range check:
   * `InMemoryJobs.StartAsync` called directly accepts speed 0.
   */
  method UnguardedStartScenario() returns (invariantHolds: bool)
    ensures !invariantHolds
  {
    var jobs := new InMemoryJobs();
    jobs.StartAsync(0);
    invariantHolds := jobs.RouteInvariant();
  }
}
