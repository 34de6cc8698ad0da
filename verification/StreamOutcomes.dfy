// When an operation succeeds, when it is fatal, and which calls it makes, told by the calls alone.
module StreamOutcomes {
  import opened StreamControl
  import opened StreamPhases
  import opened StreamSafety

  /** The call brought what it was made for. */
  predicate Fine(call: SdkCall, o: Outcome) {
    match call
    case CameraOn => o.Done?
    case RoverOn => o.Done?
    case ReadTiming => o.Done?
    case SwitchRover(_) => o.Done?
    case ReadInfo(boardNeeded) => o.Done? || (o.Refused? && !boardNeeded)
    case _ => o.Done? || o.Refused?
  }

  /** How many of all calls so far went wrong. */
  function Bad(t: Trace): nat {
    if t.NoCalls? then 0 else Bad(t.before) + One(!Fine(t.call, t.outcome))
  }

  predicate LastBad(t: Trace) {
    t.Called? && !Fine(t.call, t.outcome)
  }

  /** How often the operation was called, and how often it went well. */
  function Operations(t: Trace): nat {
    if t.NoCalls? then 0 else Operations(t.before) + One(t.call.Operation?)
  }

  function Succeeded(t: Trace): nat {
    if t.NoCalls? then 0 else Succeeded(t.before) + One(t.call.Operation? && Fine(t.call, t.outcome))
  }

  function Closings(t: Trace): nat {
    if t.NoCalls? then 0 else Closings(t.before) + One(t.call.CloseClient?)
  }

  function Names(t: Trace): seq<SdkCall> {
    if t.NoCalls? then [] else Names(t.before) + [t.call]
  }

  /** How often something was reset. */
  function Times(h: History): nat {
    if h.Nothing? then 0 else Times(h.before) + 1
  }

  // ---- straight runs of calls ----

  /** Goes on to the end of the script, or stops at the first call that goes wrong. */
  predicate Straight(c: Ctl, e: Exit, script: seq<SdkCall>, sdk: Sdk) {
    && c.tick <= e.ctl.tick <= c.tick + |script|
    && Names(e.ctl.trace) == Names(c.trace) + script[..e.ctl.tick - c.tick]
    && (e.ok ==> e.ctl.tick == c.tick + |script|)
    && Bad(e.ctl.trace) == Bad(c.trace) + One(!e.ok)
    && (!e.ok ==> LastBad(e.ctl.trace) && e.ctl.tick > c.tick && !sdk(e.ctl.tick - 1).Done?)
    && (e.ok ==> NothingRaised(sdk, c.tick, e.ctl.tick))
  }

  /** No call from one tick to another raised. */
  predicate NothingRaised(sdk: Sdk, from: nat, to: nat) {
    forall n: nat :: from <= n < to ==> !sdk(n).Raises()
  }

  /** Some call from one tick to another was not done. */
  predicate SomeNotDone(sdk: Sdk, from: nat, to: nat) {
    exists n: nat :: from <= n < to && !sdk(n).Done?
  }

  /** Neither the operation nor a reopening is in the script. */
  predicate Quietly(c: Ctl, e: Exit) {
    && Operations(e.ctl.trace) == Operations(c.trace) && Succeeded(e.ctl.trace) == Succeeded(c.trace)
    && Closings(e.ctl.trace) == Closings(c.trace)
    && e.ctl.rebases == c.rebases
    && (e.ctl.trace == c.trace || (e.ctl.trace.Called? && !e.ctl.trace.call.Operation?))
  }

  lemma StraightThen(c: Ctl, first: Exit, second: Exit, s: seq<SdkCall>, t: seq<SdkCall>, sdk: Sdk)
    requires Straight(c, first, s, sdk) && first.ok && Straight(first.ctl, second, t, sdk)
    ensures Straight(c, second, s + t, sdk)
  {
    var n := second.ctl.tick - first.ctl.tick;
    assert s + t[..n] == (s + t)[..|s| + n];
    assert s[..|s|] == s;
    assert (Names(c.trace) + s) + t[..n] == Names(c.trace) + (s + t[..n]);
  }

  lemma StraightStops(c: Ctl, first: Exit, s: seq<SdkCall>, t: seq<SdkCall>, sdk: Sdk)
    requires Straight(c, first, s, sdk) && !first.ok
    ensures Straight(c, first, s + t, sdk)
  {
    var n := first.ctl.tick - c.tick;
    assert (s + t)[..n] == s[..n];
  }

  /** One call, if it is made at all. */
  predicate OneCall(c: Ctl, e: Exit, made: bool, call: SdkCall, sdk: Sdk) {
    && e.ctl.trace == (if made then Called(c.trace, call, sdk(c.tick)) else c.trace)
    && e.ctl.tick == c.tick + One(made)
    && (e.ok <==> !made || Fine(call, sdk(c.tick)))
    && e.ctl.rebases == c.rebases
  }

  function If(made: bool, call: SdkCall): seq<SdkCall> {
    if made then [call] else []
  }

  lemma OneCallStraight(c: Ctl, e: Exit, made: bool, call: SdkCall, sdk: Sdk)
    requires OneCall(c, e, made, call, sdk)
    ensures Straight(c, e, If(made, call), sdk)
    ensures !call.Operation? && !call.CloseClient? ==> Quietly(c, e)
  {
    assert If(made, call)[..0] == [] && Names(c.trace) + [] == Names(c.trace);
    assert [call][..1] == [call];
  }

  lemma CameraCall(c: Ctl, sdk: Sdk)
    ensures OneCall(c, StartCamera(c, sdk), WantsCamera(c), CameraOn, sdk)
  {
  }

  lemma ImuCall(c: Ctl, sdk: Sdk)
    requires c.enabled.imu ==> c.imuObject
    ensures OneCall(c, StartImu(c, sdk), WantsImu(c), ImuOn, sdk)
  {
  }

  lemma ReferenceCall(c: Ctl, sdk: Sdk)
    ensures OneCall(c, Establish(c, sdk), c.enabled.camera || c.enabled.imu, AwaitReference, sdk)
  {
  }

  lemma RoverCall(c: Ctl, sdk: Sdk)
    ensures OneCall(c, StartRover(c, sdk), c.roverEnabled && !c.roverActive, RoverOn, sdk)
  {
  }

  lemma LidarCall(c: Ctl, sdk: Sdk)
    requires c.enabled.lidar ==> c.lidarObject
    ensures OneCall(c, StartLidar(c, sdk), WantsLidar(c), LidarOn, sdk)
  {
  }

  lemma StopRoverCall(c: Ctl, sdk: Sdk)
    ensures OneCall(c, StopRover(c, sdk), c.roverActive, RoverOff, sdk)
  {
  }

  lemma StopLidarCall(c: Ctl, sdk: Sdk)
    requires Sound(c)
    ensures OneCall(c, StopLidar(c, sdk), c.active.lidar, LidarOff, sdk)
  {
  }

  lemma StopCaptureCall(c: Ctl, sdk: Sdk)
    requires Sound(c)
    ensures OneCall(c, StopCapture(c, sdk), c.active.imu || c.active.camera,
                    if c.active.imu then ImuOff else CameraOff, sdk)
  {
  }

  function CaptureScript(c: Ctl): seq<SdkCall> {
    If(WantsCamera(c), CameraOn) + If(WantsImu(c), ImuOn)
  }

  function RestScript(c: Ctl): seq<SdkCall> {
    If(c.enabled.camera || c.enabled.imu, AwaitReference)
    + (If(c.roverEnabled && !c.roverActive, RoverOn) + If(WantsLidar(c), LidarOn))
  }

  /** What a start has to ask for: camera, board IMU, time reference, rover, LiDAR. */
  function StartScript(c: Ctl): seq<SdkCall> {
    CaptureScript(c) + RestScript(c)
  }

  /** What a stop has to ask for: rover, LiDAR, and one call for the capture session. */
  function StopScript(c: Ctl): seq<SdkCall> {
    If(c.roverActive, RoverOff)
    + (If(c.active.lidar, LidarOff) + If(c.active.imu || c.active.camera, if c.active.imu then ImuOff else CameraOff))
  }

  /** The second phase runs if the first one went well. */
  lemma Two(c: Ctl, first: Exit, second: Exit, all: Exit, s: seq<SdkCall>, t: seq<SdkCall>, sdk: Sdk)
    requires Straight(c, first, s, sdk) && Quietly(c, first)
    requires first.ok ==> Straight(first.ctl, second, t, sdk) && Quietly(first.ctl, second)
    requires all == if first.ok then second else first
    ensures Straight(c, all, s + t, sdk) && Quietly(c, all)
  {
    if first.ok {
      StraightThen(c, first, second, s, t, sdk);
    } else {
      StraightStops(c, first, s, t, sdk);
    }
  }

  lemma CaptureCallsMade(c: Ctl, sdk: Sdk)
    requires c.enabled.imu ==> c.imuObject
    ensures Straight(c, StartCapture(c, sdk), CaptureScript(c), sdk) && Quietly(c, StartCapture(c, sdk))
  {
    var camera := StartCamera(c, sdk);
    CameraCall(c, sdk);
    OneCallStraight(c, camera, WantsCamera(c), CameraOn, sdk);
    CameraEffect(c, sdk);
    ImuCall(camera.ctl, sdk);
    var imu := StartImu(camera.ctl, sdk);
    OneCallStraight(camera.ctl, imu, WantsImu(c), ImuOn, sdk);
    Two(c, camera, imu, StartCapture(c, sdk), If(WantsCamera(c), CameraOn), If(WantsImu(c), ImuOn), sdk);
  }

  lemma RoverAndLidarCalls(c: Ctl, sdk: Sdk)
    requires c.enabled.lidar ==> c.lidarObject
    ensures var rover := StartRover(c, sdk);
            var all := if rover.ok then StartLidar(rover.ctl, sdk) else rover;
            Straight(c, all, If(c.roverEnabled && !c.roverActive, RoverOn) + If(WantsLidar(c), LidarOn), sdk)
            && Quietly(c, all)
  {
    var rover := StartRover(c, sdk);
    RoverCall(c, sdk);
    OneCallStraight(c, rover, c.roverEnabled && !c.roverActive, RoverOn, sdk);
    RoverEffect(c, sdk);
    LidarCall(rover.ctl, sdk);
    var lidar := StartLidar(rover.ctl, sdk);
    OneCallStraight(rover.ctl, lidar, WantsLidar(c), LidarOn, sdk);
    Two(c, rover, lidar, if rover.ok then lidar else rover,
        If(c.roverEnabled && !c.roverActive, RoverOn), If(WantsLidar(c), LidarOn), sdk);
  }

  lemma RestCallsMade(c: Ctl, sdk: Sdk)
    requires c.enabled.lidar ==> c.lidarObject
    ensures Straight(c, StartRest(c, sdk), RestScript(c), sdk) && Quietly(c, StartRest(c, sdk))
  {
    var reference := Establish(c, sdk);
    ReferenceCall(c, sdk);
    OneCallStraight(c, reference, c.enabled.camera || c.enabled.imu, AwaitReference, sdk);
    EstablishEffect(c, sdk);
    RoverAndLidarCalls(reference.ctl, sdk);
    var rover := StartRover(reference.ctl, sdk);
    Two(c, reference, if rover.ok then StartLidar(rover.ctl, sdk) else rover, StartRest(c, sdk),
        If(c.enabled.camera || c.enabled.imu, AwaitReference),
        If(c.roverEnabled && !c.roverActive, RoverOn) + If(WantsLidar(c), LidarOn), sdk);
  }

  /** A start makes exactly the calls of its script, up to the first that goes wrong, and succeeds if none does. */
  lemma StartMakesItsCalls(c: Ctl, sdk: Sdk)
    ensures Straight(c, Start(c, sdk), StartScript(c), sdk) && Quietly(c, Start(c, sdk))
  {
    var ready := EnsureObjects(c);
    var capture := StartCapture(ready, sdk);
    CaptureCallsMade(ready, sdk);
    CaptureLeaves(ready, sdk);
    RestCallsMade(capture.ctl, sdk);
    SameRest(ready, capture.ctl);
    StartIsTwo(ready, capture, StartRest(capture.ctl, sdk), sdk);
    FromReady(c, if capture.ok then StartRest(capture.ctl, sdk) else capture, sdk);
  }

  lemma SameRest(c: Ctl, d: Ctl)
    requires d.enabled == c.enabled && d.roverEnabled == c.roverEnabled && d.roverActive == c.roverActive
    requires d.active.lidar == c.active.lidar
    ensures RestScript(d) == RestScript(c)
  {
  }

  lemma SameScript(c: Ctl, d: Ctl)
    requires d.enabled == c.enabled && d.roverEnabled == c.roverEnabled && d.roverActive == c.roverActive
    requires d.active == c.active
    ensures StartScript(d) == StartScript(c)
  {
  }

  lemma StartIsTwo(c: Ctl, capture: Exit, rest: Exit, sdk: Sdk)
    requires Straight(c, capture, CaptureScript(c), sdk) && Quietly(c, capture)
    requires Straight(capture.ctl, rest, RestScript(capture.ctl), sdk) && Quietly(capture.ctl, rest)
    requires RestScript(capture.ctl) == RestScript(c)
    ensures var all := if capture.ok then rest else capture;
            Straight(c, all, StartScript(c), sdk) && Quietly(c, all)
  {
    Two(c, capture, rest, if capture.ok then rest else capture, CaptureScript(c), RestScript(c), sdk);
  }

  lemma FromReady(c: Ctl, e: Exit, sdk: Sdk)
    requires Straight(EnsureObjects(c), e, StartScript(EnsureObjects(c)), sdk) && Quietly(EnsureObjects(c), e)
    ensures Straight(c, e, StartScript(c), sdk) && Quietly(c, e)
  {
  }

  lemma CaptureLeaves(c: Ctl, sdk: Sdk)
    ensures var d := StartCapture(c, sdk).ctl;
            && d.enabled == c.enabled && d.roverEnabled == c.roverEnabled && d.roverActive == c.roverActive
            && d.active.lidar == c.active.lidar && d.lidarObject == c.lidarObject
  {
    CameraEffect(c, sdk);
    ImuEffect(StartCamera(c, sdk).ctl, sdk);
  }

  lemma SessionStopCalls(c: Ctl, sdk: Sdk)
    requires Sound(c)
    ensures var lidar := StopLidar(c, sdk);
            var all := if lidar.ok then StopCapture(lidar.ctl, sdk) else lidar;
            && Straight(c, all, If(c.active.lidar, LidarOff)
                                + If(c.active.imu || c.active.camera, if c.active.imu then ImuOff else CameraOff), sdk)
            && Quietly(c, all)
  {
    var lidar := StopLidar(c, sdk);
    StopLidarCall(c, sdk);
    OneCallStraight(c, lidar, c.active.lidar, LidarOff, sdk);
    StopLidarEffect(c, sdk);
    StopCaptureCall(lidar.ctl, sdk);
    var capture, off := StopCapture(lidar.ctl, sdk), if c.active.imu then ImuOff else CameraOff;
    OneCallStraight(lidar.ctl, capture, c.active.imu || c.active.camera, off, sdk);
    Two(c, lidar, capture, if lidar.ok then capture else lidar,
        If(c.active.lidar, LidarOff), If(c.active.imu || c.active.camera, off), sdk);
  }

  /** And so does a stop. */
  lemma StopMakesItsCalls(c: Ctl, sdk: Sdk)
    requires Sound(c)
    ensures Straight(c, Stop(c, sdk), StopScript(c), sdk) && Quietly(c, Stop(c, sdk))
  {
    var d := Unwatched(c);
    var rover := StopRover(d, sdk);
    StopRoverCall(d, sdk);
    OneCallStraight(d, rover, c.roverActive, RoverOff, sdk);
    StopRoverEffect(d, sdk);
    SessionStopCalls(rover.ctl, sdk);
    var lidar := StopLidar(rover.ctl, sdk);
    var rest := if lidar.ok then StopCapture(lidar.ctl, sdk) else lidar;
    Two(d, rover, rest, if rover.ok then rest else rover, If(c.roverActive, RoverOff),
        If(c.active.lidar, LidarOff)
        + If(c.active.imu || c.active.camera, if c.active.imu then ImuOff else CameraOff), sdk);
    FromUnwatched(c, if rover.ok then rest else rover, sdk);
  }

  lemma FromUnwatched(c: Ctl, e: Exit, sdk: Sdk)
    requires Straight(Unwatched(c), e, StopScript(c), sdk) && Quietly(Unwatched(c), e)
    ensures Straight(c, e, StopScript(c), sdk) && Quietly(c, e)
  {
  }

  lemma CallMade(c: Ctl, sdk: Sdk, call: SdkCall)
    requires call == PublishState || call == Operation || call == CloseClient || call == OpenClient || call == KeepAlive
    ensures OneCall(c, Call(c, sdk, call), true, call, sdk) && Straight(c, Call(c, sdk, call), [call], sdk)
    ensures call != Operation && call != CloseClient ==> Quietly(c, Call(c, sdk, call))
    ensures Kept(c, Call(c, sdk, call).ctl)
  {
    OneCallStraight(c, Call(c, sdk, call), true, call, sdk);
  }

  lemma RestartMakesItsCalls(c: Ctl, sdk: Sdk)
    ensures Straight(c, Restart(c, sdk), StartScript(c) + [PublishState], sdk) && Quietly(c, Restart(c, sdk))
    ensures Restart(c, sdk).ctl.trace.Called?
  {
    var started := Start(c, sdk);
    StartMakesItsCalls(c, sdk);
    CallMade(started.ctl, sdk, PublishState);
    Two(c, started, Call(started.ctl, sdk, PublishState), Restart(c, sdk), StartScript(c), [PublishState], sdk);
  }

  /** A recovery: never a success, fatal exactly if a call of it goes wrong, which is then the last one. */
  lemma RecoverMakesItsCalls(c: Ctl, sdk: Sdk)
    requires Sound(c) && !c.fatal
    ensures var e := Recover(c, sdk);
            && !e.ok && Quietly(c, e)
            && Bad(e.ctl.trace) == Bad(c.trace) + One(e.ctl.fatal)
            && (e.ctl.fatal <==> LastBad(e.ctl.trace))
  {
    RestartMakesItsCalls(c, sdk);
    RestartFacts(c, sdk);
    RestartEnds(c, sdk);
  }

  lemma RestartEnds(c: Ctl, sdk: Sdk)
    ensures Restart(c, sdk).ok <==> !LastBad(Restart(c, sdk).ctl.trace)
  {
    RestartMakesItsCalls(c, sdk);
  }

  // ---- runIdleOperation ----

  /** How a state compares with an earlier one. */
  datatype Tally = Tally(bad: int, operations: int, succeeded: int, closings: int, rebases: int)

  function TallyOf(c: Ctl, d: Ctl): Tally {
    Tally(Bad(d.trace) - Bad(c.trace), Operations(d.trace) - Operations(c.trace),
          Succeeded(d.trace) - Succeeded(c.trace), Closings(d.trace) - Closings(c.trace),
          Times(d.rebases) - Times(c.rebases))
  }

  /** Success is a run of calls none of which goes wrong, and these calls are the script. */
  predicate Honest(c: Ctl, e: Exit, script: seq<SdkCall>, sdk: Sdk) {
    && (e.ok <==> Bad(e.ctl.trace) == Bad(c.trace))
    && (e.ok ==> NothingRaised(sdk, c.tick, e.ctl.tick) && Names(e.ctl.trace) == Names(c.trace) + script)
    && (!e.ok ==> SomeNotDone(sdk, c.tick, e.ctl.tick))
  }

  lemma StraightIsHonest(c: Ctl, e: Exit, script: seq<SdkCall>, sdk: Sdk)
    requires Straight(c, e, script, sdk)
    ensures Honest(c, e, script, sdk)
  {
    assert script[..|script|] == script;
  }

  /** After a part that went well. */
  lemma HonestThen(c: Ctl, first: Exit, second: Exit, s: seq<SdkCall>, t: seq<SdkCall>, sdk: Sdk)
    requires Straight(c, first, s, sdk) && first.ok && Honest(first.ctl, second, t, sdk)
    requires second.ctl.tick >= first.ctl.tick
    ensures Honest(c, second, s + t, sdk)
  {
    assert s[..|s|] == s;
    assert (Names(c.trace) + s) + t == Names(c.trace) + (s + t);
    if !second.ok {
      var n: nat :| first.ctl.tick <= n < second.ctl.tick && !sdk(n).Done?;
      assert c.tick <= n;
    }
  }

  /** After a part that went wrong: whatever follows, this is no success. */
  lemma HonestFailure(c: Ctl, first: Exit, second: Exit, s: seq<SdkCall>, t: seq<SdkCall>, sdk: Sdk)
    requires Straight(c, first, s, sdk) && !first.ok && !second.ok
    requires second.ctl.tick >= first.ctl.tick && Bad(second.ctl.trace) >= Bad(first.ctl.trace)
    ensures Honest(c, second, t, sdk)
  {
    assert c.tick <= first.ctl.tick - 1 < second.ctl.tick;
  }

  lemma RecoverEnds(c: Ctl, sdk: Sdk)
    ensures var e := Recover(c, sdk);
            !e.ok && e.ctl.tick >= c.tick && Bad(e.ctl.trace) >= Bad(c.trace)
  {
    RestartMakesItsCalls(c, sdk);
  }

  /** The call of the operation itself. */
  lemma OperateCall(c: Ctl, sdk: Sdk)
    ensures var done := Operate(c, sdk);
            && Straight(c, done, [Operation], sdk)
            && TallyOf(c, done.ctl) == Tally(One(!done.ok), 1, One(done.ok), 0, 0)
            && done.ctl.enabled == c.enabled && done.ctl.fatal == c.fatal
            && StartScript(done.ctl) == StartScript(c)
  {
    var noted := c.(idleRuns := After(c.idleRuns, c.device));
    CallMade(noted, sdk, Operation);
    SameScript(c, Operate(c, sdk).ctl);
  }

  function OperationScript(c: Ctl): seq<SdkCall> {
    [Operation] + (StartScript(c) + [PublishState])
  }

  lemma OperationHonest(c: Ctl, sdk: Sdk)
    ensures var e := OperateAndRestart(c, sdk);
            Honest(c, e, OperationScript(c), sdk) && e.ctl.tick >= c.tick
  {
    var done := Operate(c, sdk);
    OperateCall(c, sdk);
    if done.ok {
      RestartMakesItsCalls(done.ctl, sdk);
      StraightIsHonest(done.ctl, Restart(done.ctl, sdk), StartScript(c) + [PublishState], sdk);
      HonestThen(c, done, Restart(done.ctl, sdk), [Operation], StartScript(c) + [PublishState], sdk);
    } else {
      RecoverEnds(done.ctl, sdk);
      HonestFailure(c, done, OperateAndRestart(c, sdk), [Operation], OperationScript(c), sdk);
    }
  }

  /**
   * The operation of runIdleOperation and what follows. It turns fatal exactly if the operation went
   * well and what followed did not, or if the operation and its recovery both went wrong.
   */
  lemma OperationOutcome(c: Ctl, sdk: Sdk)
    requires Sound(c) && c.active == NONE
    ensures var e := OperateAndRestart(c, sdk);
            var t := TallyOf(c, e.ctl);
            && 0 <= t.bad <= 2
            && t.operations == 1 && t.closings == 0 && t.rebases == 0 && 0 <= t.succeeded <= 1
            && (!c.fatal ==> (e.ctl.fatal <==> t.bad == 2 || (t.bad == 1 && t.succeeded == 1)))
            && (!c.fatal && !e.ok && !e.ctl.fatal ==> !LastBad(e.ctl.trace))
  {
    var done := Operate(c, sdk);
    OperateCall(c, sdk);
    RestartMakesItsCalls(done.ctl, sdk);
    RestartFacts(done.ctl, sdk);
    if !c.fatal {
      RecoverMakesItsCalls(done.ctl, sdk);
    }
  }

  function PauseScript(c: Ctl): seq<SdkCall> {
    [PublishState] + StopScript(c)
  }

  lemma PauseMakesItsCalls(c: Ctl, sdk: Sdk)
    requires Sound(c)
    ensures Straight(c, Paused(c, sdk), PauseScript(c), sdk) && Quietly(c, Paused(c, sdk))
  {
    var announced := Call(c, sdk, PublishState);
    CallMade(c, sdk, PublishState);
    StopMakesItsCalls(announced.ctl, sdk);
    Two(c, announced, Stop(announced.ctl, sdk), Paused(c, sdk), [PublishState], StopScript(c), sdk);
  }

  /** What the configuration asks for after a pause. */
  function StoppedState(c: Ctl): Ctl {
    c.(active := NONE, roverActive := false)
  }

  lemma PausedScript(c: Ctl, sdk: Sdk)
    requires Sound(c) && Paused(c, sdk).ok
    ensures Paused(c, sdk).ctl.active == NONE && !Paused(c, sdk).ctl.roverActive && Kept(c, Paused(c, sdk).ctl)
    ensures StartScript(Paused(c, sdk).ctl) == StartScript(StoppedState(c))
  {
    PausedFacts(c, sdk);
    var announced := Call(c, sdk, PublishState).ctl;
    StopRoverEffect(Unwatched(announced), sdk);
    var rover := StopRover(Unwatched(announced), sdk);
    StopLidarEffect(rover.ctl, sdk);
    StopCaptureEffect(StopLidar(rover.ctl, sdk).ctl, sdk);
  }

  /** The calls of an idle operation in which nothing goes wrong. */
  function RunIdleScript(c: Ctl): seq<SdkCall> {
    PauseScript(c) + OperationScript(StoppedState(c))
  }

  /**
   * runIdleOperation succeeds exactly if no call of it goes wrong - neither a stop, nor the operation,
   * nor a start - and then it has announced, stopped, operated, started and reported, in this order.
   */
  lemma RunIdleSucceedsExactly(c: Ctl, sdk: Sdk)
    requires Sound(c)
    ensures Honest(c, RunIdle(c, sdk), RunIdleScript(c), sdk)
    ensures RunIdle(c, sdk).ctl.tick >= c.tick
  {
    PauseMakesItsCalls(c, sdk);
    var paused := Paused(c, sdk);
    var announced := Call(c, sdk, PublishState);
    if paused.ok {
      PausedScript(c, sdk);
      OperationHonest(Rebased(paused.ctl), sdk);
      HonestThen(c, paused, RunIdle(c, sdk), PauseScript(c), OperationScript(StoppedState(c)), sdk);
    } else {
      RecoverEnds(paused.ctl, sdk);
      HonestFailure(c, paused, RunIdle(c, sdk), PauseScript(c), RunIdleScript(c), sdk);
    }
  }

  /**
   * It turns fatal exactly if the streams could not be started again: after an operation that went well,
   * or in the recovery. A failure that is not fatal ends with a recovery that went well, unless it was
   * the announcement that failed. The operation is called exactly after a pause without fault.
   */
  lemma RunIdleOutcome(c: Ctl, sdk: Sdk)
    requires Sound(c)
    ensures var e := RunIdle(c, sdk);
            var t := TallyOf(c, e.ctl);
            && 0 <= t.bad <= 2
            && 0 <= t.operations <= 1 && t.closings == 0 && t.rebases == t.operations
            && (t.operations == 1 <==> Paused(c, sdk).ok)
            && (!c.fatal ==> (e.ctl.fatal <==> t.bad == 2 || (t.bad == 1 && t.succeeded == 1)))
            && (!c.fatal && !e.ok && !e.ctl.fatal && LastBad(e.ctl.trace) ==> e.ctl.tick == c.tick + 1)
  {
    PauseMakesItsCalls(c, sdk);
    PausedFacts(c, sdk);
    var announced, paused := Call(c, sdk, PublishState), Paused(c, sdk);
    CallMade(c, sdk, PublishState);
    if paused.ok {
      OperationOutcome(Rebased(paused.ctl), sdk);
    } else if announced.ok {
      RestartMakesItsCalls(paused.ctl, sdk);
      if !c.fatal {
        RecoverMakesItsCalls(paused.ctl, sdk);
      }
    }
  }

  // ---- synchronizeSystemTime ----

  function ReopenScript(c: Ctl): seq<SdkCall> {
    [CloseClient, OpenClient, KeepAlive, ReadInfo(c.enabled.camera || c.enabled.imu)]
  }

  /** Like Quietly, with one reopening. */
  predicate Reopens(c: Ctl, e: Exit) {
    && Operations(e.ctl.trace) == Operations(c.trace) && Succeeded(e.ctl.trace) == Succeeded(c.trace)
    && Closings(e.ctl.trace) == Closings(c.trace) + 1
    && e.ctl.rebases == c.rebases
    && e.ctl.trace.Called? && e.ctl.trace.call != Operation
  }

  lemma ReadInfoCall(c: Ctl, e: Exit, sdk: Sdk)
    requires var boardNeeded := c.enabled.camera || c.enabled.imu;
             var asked := Tick(c, sdk, ReadInfo(boardNeeded));
             e == (if sdk(c.tick).Raises() || (sdk(c.tick).Refused? && boardNeeded) then Exit(asked, false)
                   else Exit(EnsureObjects(asked), true))
    ensures Straight(c, e, [ReadInfo(c.enabled.camera || c.enabled.imu)], sdk) && Quietly(c, e)
  {
    OneCallStraight(c, e, true, ReadInfo(c.enabled.camera || c.enabled.imu), sdk);
  }

  lemma OpenCalls(c: Ctl, sdk: Sdk)
    ensures var reopened := Call(c, sdk, OpenClient);
            var e := if reopened.ok then Call(reopened.ctl, sdk, KeepAlive) else reopened;
            Straight(c, e, [OpenClient, KeepAlive], sdk) && Quietly(c, e) && Kept(c, e.ctl)
  {
    var reopened := Call(c, sdk, OpenClient);
    var alive := Call(reopened.ctl, sdk, KeepAlive);
    CallMade(c, sdk, OpenClient);
    CallMade(reopened.ctl, sdk, KeepAlive);
    Two(c, reopened, alive, if reopened.ok then alive else reopened, [OpenClient], [KeepAlive], sdk);
    assert [OpenClient] + [KeepAlive] == [OpenClient, KeepAlive];
  }

  lemma SessionCalls(c: Ctl, sdk: Sdk)
    ensures var e := ReopenSession(c, sdk);
            && Straight(c, e, [CloseClient, OpenClient, KeepAlive], sdk) && Reopens(c, e)
            && e.ctl.enabled == c.enabled
  {
    var bare := c.(imuObject := false, lidarObject := false);
    var closed := Call(bare, sdk, CloseClient);
    CallMade(bare, sdk, CloseClient);
    OpenCalls(closed.ctl, sdk);
    assert [CloseClient] + [OpenClient, KeepAlive] == [CloseClient, OpenClient, KeepAlive];
    if closed.ok {
      StraightThen(bare, closed, ReopenSession(c, sdk), [CloseClient], [OpenClient, KeepAlive], sdk);
    } else {
      StraightStops(bare, closed, [CloseClient], [OpenClient, KeepAlive], sdk);
    }
  }

  lemma ReopenMakesItsCalls(c: Ctl, sdk: Sdk)
    ensures Straight(c, Reopen(c, sdk), ReopenScript(c), sdk) && Reopens(c, Reopen(c, sdk))
  {
    var alive := ReopenSession(c, sdk);
    SessionCalls(c, sdk);
    var session, info := [CloseClient, OpenClient, KeepAlive], [ReadInfo(c.enabled.camera || c.enabled.imu)];
    assert session + info == ReopenScript(c);
    if alive.ok {
      ReadInfoCall(alive.ctl, Reopen(c, sdk), sdk);
      StraightThen(c, alive, Reopen(c, sdk), session, info, sdk);
    } else {
      StraightStops(c, alive, session, info, sdk);
    }
  }

  lemma ReopenLeaves(c: Ctl, sdk: Sdk)
    ensures var d := Reopen(c, sdk).ctl;
            Kept(c, d) && d.active == c.active && d.roverActive == c.roverActive
  {
  }

  lemma ReopenAndStartCalls(c: Ctl, sdk: Sdk)
    ensures Straight(c, ReopenAndStart(c, sdk), ReopenScript(c) + StartScript(c), sdk)
    ensures Reopens(c, ReopenAndStart(c, sdk))
  {
    var reopened := Reopen(c, sdk);
    ReopenMakesItsCalls(c, sdk);
    ReopenLeaves(c, sdk);
    if reopened.ok {
      StartMakesItsCalls(reopened.ctl, sdk);
      StraightThen(c, reopened, ReopenAndStart(c, sdk), ReopenScript(c), StartScript(c), sdk);
    } else {
      StraightStops(c, reopened, ReopenScript(c), StartScript(c), sdk);
    }
  }

  lemma ReopenAndRestartCalls(c: Ctl, sdk: Sdk)
    ensures Straight(c, ReopenAndRestart(c, sdk), ReopenScript(c) + StartScript(c) + [PublishState], sdk)
    ensures Reopens(c, ReopenAndRestart(c, sdk))
  {
    var started := ReopenAndStart(c, sdk);
    ReopenAndStartCalls(c, sdk);
    if started.ok {
      CallMade(started.ctl, sdk, PublishState);
      StraightThen(c, started, ReopenAndRestart(c, sdk), ReopenScript(c) + StartScript(c), [PublishState], sdk);
    } else {
      StraightStops(c, started, ReopenScript(c) + StartScript(c), [PublishState], sdk);
    }
  }

  function SyncOperationScript(c: Ctl): seq<SdkCall> {
    [Operation] + (ReopenScript(c) + StartScript(c) + [PublishState])
  }

  /** A reopening that goes wrong is fatal; then nothing more is called. */
  lemma FinishIsRestart(c: Ctl, sdk: Sdk)
    ensures var started := Final(ReopenAndStart(c, sdk));
            var e := if started.ok then Call(started.ctl, sdk, PublishState) else started;
            var r := ReopenAndRestart(c, sdk);
            && e.ok == r.ok && e.ctl.trace == r.ctl.trace && e.ctl.tick == r.ctl.tick && e.ctl.rebases == r.ctl.rebases
            && (e.ctl.fatal <==> r.ctl.fatal || !started.ok)
  {
  }

  lemma SyncOperationHonest(c: Ctl, sdk: Sdk)
    ensures Honest(c, SyncAndReopen(c, sdk), SyncOperationScript(c), sdk)
    ensures SyncAndReopen(c, sdk).ctl.tick >= c.tick
  {
    var done := Operate(c, sdk);
    OperateCall(c, sdk);
    ReopenAndRestartCalls(done.ctl, sdk);
    var rest, again := ReopenScript(c) + StartScript(c) + [PublishState], ReopenAndRestart(done.ctl, sdk);
    if done.ok {
      StraightIsHonest(done.ctl, again, rest, sdk);
      HonestThen(c, done, again, [Operation], rest, sdk);
      FinishIsRestart(done.ctl, sdk);
    } else {
      HonestFailure(c, done, SyncAndReopen(c, sdk), [Operation], SyncOperationScript(c), sdk);
    }
  }

  /** The calls of a time synchronization in which nothing goes wrong. */
  function SyncScript(c: Ctl): seq<SdkCall> {
    [ReadTiming] + (PauseScript(c) + SyncOperationScript(StoppedState(c)))
  }

  /** Once the lock was asked for. */
  lemma SyncIsPaused(c: Ctl, sdk: Sdk)
    requires sdk(c.tick).Done?
    ensures var asked := Tick(c, sdk, ReadTiming);
            var paused := Paused(asked, sdk);
            SyncTime(c, sdk) == if paused.ok then SyncAndReopen(Rebased(paused.ctl), sdk)
                                else if Call(asked, sdk, PublishState).ok then Recover(paused.ctl, sdk) else paused
  {
  }

  lemma PausedSyncHonest(c: Ctl, e: Exit, sdk: Sdk)
    requires Sound(c)
    requires var paused := Paused(c, sdk);
             e == if paused.ok then SyncAndReopen(Rebased(paused.ctl), sdk)
                  else if Call(c, sdk, PublishState).ok then Recover(paused.ctl, sdk) else paused
    ensures Honest(c, e, PauseScript(c) + SyncOperationScript(StoppedState(c)), sdk) && e.ctl.tick >= c.tick
  {
    PauseMakesItsCalls(c, sdk);
    var paused := Paused(c, sdk);
    var script := SyncOperationScript(StoppedState(c));
    if paused.ok {
      PausedScript(c, sdk);
      SyncOperationHonest(Rebased(paused.ctl), sdk);
      HonestThen(c, paused, e, PauseScript(c), script, sdk);
    } else {
      RecoverEnds(paused.ctl, sdk);
      HonestFailure(c, paused, e, PauseScript(c), PauseScript(c) + script, sdk);
    }
  }

  /**
   * synchronizeSystemTime succeeds exactly if no call of it goes wrong, and then it has asked for the
   * lock, announced, stopped, synchronized, reopened the session, started and reported, in this order.
   */
  lemma SyncSucceedsExactly(c: Ctl, sdk: Sdk)
    requires Sound(c)
    ensures Honest(c, SyncTime(c, sdk), SyncScript(c), sdk)
  {
    var asked := Exit(Tick(c, sdk, ReadTiming), sdk(c.tick).Done?);
    OneCallStraight(c, asked, true, ReadTiming, sdk);
    if asked.ok {
      SyncIsPaused(c, sdk);
      PausedSyncHonest(asked.ctl, SyncTime(c, sdk), sdk);
      HonestThen(c, asked, SyncTime(c, sdk), [ReadTiming],
                 PauseScript(c) + SyncOperationScript(StoppedState(c)), sdk);
    } else {
      HonestFailure(c, asked, asked, [ReadTiming], SyncScript(c), sdk);
    }
  }

  lemma SyncOperationOutcome(c: Ctl, sdk: Sdk)
    requires Sound(c) && c.active == NONE && !c.fatal
    ensures var e := SyncAndReopen(c, sdk);
            var t := TallyOf(c, e.ctl);
            && 0 <= t.bad <= 2
            && t.operations == 1 && t.closings == 1 && t.rebases == 0 && 0 <= t.succeeded <= 1
            && e.ctl.trace.Called?
            && (e.ctl.fatal <==>
                  t.bad == 2 || (t.bad == 1 && t.succeeded == 1 && e.ctl.trace.call != PublishState))
            && (!e.ok && !e.ctl.fatal && LastBad(e.ctl.trace) ==>
                  t.succeeded == 1 && e.ctl.trace.call == PublishState)
  {
    var done := Operate(c, sdk);
    OperateCall(c, sdk);
    var started := ReopenAndStart(done.ctl, sdk);
    ReopenFacts(done.ctl, sdk);
    ReopenAndStartCalls(done.ctl, sdk);
    ReopenAndRestartCalls(done.ctl, sdk);
    StartNeverReports(done.ctl, started, sdk);
    CallMade(started.ctl, sdk, PublishState);
  }

  /** A start that goes wrong does so at one of its own calls. */
  lemma StartNeverReports(c: Ctl, started: Exit, sdk: Sdk)
    requires Straight(c, started, ReopenScript(c) + StartScript(c), sdk)
    ensures !started.ok ==> started.ctl.trace.Called? && started.ctl.trace.call != PublishState
  {
    if !started.ok {
      var script, n := ReopenScript(c) + StartScript(c), started.ctl.tick - c.tick;
      assert script[..n][n - 1] == script[n - 1];
      assert Names(started.ctl.trace)[|Names(started.ctl.trace)| - 1] == script[n - 1];
    }
  }

  /**
   * It turns fatal exactly if what followed a good synchronization went wrong before the last report, or
   * if a recovery went wrong too. The session is reopened exactly once, after a synchronization was tried.
   */
  lemma SyncOutcome(c: Ctl, sdk: Sdk)
    requires Sound(c) && !c.fatal
    ensures var e := SyncTime(c, sdk);
            var t := TallyOf(c, e.ctl);
            && 0 <= t.bad <= 2
            && 0 <= t.operations <= 1 && t.closings == t.operations == t.rebases
            && (t.operations == 1 <==> sdk(c.tick).Done? && Paused(Tick(c, sdk, ReadTiming), sdk).ok)
            && e.ctl.trace.Called?
            && (e.ctl.fatal <==>
                  t.bad == 2 || (t.bad == 1 && t.succeeded == 1 && e.ctl.trace.call != PublishState))
            && (!e.ok && !e.ctl.fatal && LastBad(e.ctl.trace) ==>
                  e.ctl.tick <= c.tick + 2 || (t.succeeded == 1 && e.ctl.trace.call == PublishState))
  {
    var asked := Tick(c, sdk, ReadTiming);
    var announced, paused := Call(asked, sdk, PublishState), Paused(asked, sdk);
    if sdk(c.tick).Done? {
      PauseMakesItsCalls(asked, sdk);
      PausedFacts(asked, sdk);
      CallMade(asked, sdk, PublishState);
      if paused.ok {
        SyncOperationOutcome(Rebased(paused.ctl), sdk);
      } else if announced.ok {
        RestartMakesItsCalls(paused.ctl, sdk);
        RecoverMakesItsCalls(paused.ctl, sdk);
      }
    }
  }

  // ---- applyStreamCommand ----

  /** What a new configuration asks for after a pause. */
  function ReconfiguredState(c: Ctl, command: StreamCommand, selected: Streams): Ctl {
    StoppedState(c).(enabled := Combined(c.enabled, command, selected))
  }

  function ApplyScript(c: Ctl, command: StreamCommand, selected: Streams): seq<SdkCall> {
    PauseScript(c) + (StartScript(ReconfiguredState(c, command, selected)) + [PublishState])
  }

  lemma RollBackMakesItsCalls(c: Ctl, previous: Streams, sdk: Sdk)
    requires Sound(c) && !c.fatal
    ensures var e := RollBack(c, previous, sdk);
            var t := TallyOf(c, e.ctl);
            && !e.ok && e.ctl.tick >= c.tick
            && 0 <= t.bad <= 2 && (e.ctl.fatal ==> t.bad >= 1) && (e.ctl.fatal <==> LastBad(e.ctl.trace))
            && t.operations == 0 && t.closings == 0 && t.rebases == 1
  {
    StopMakesItsCalls(c, sdk);
    StopFacts(c, sdk);
    var restored := Rebased(Stop(c, sdk).ctl.(enabled := previous));
    RecoverMakesItsCalls(restored, sdk);
    RecoverEnds(restored, sdk);
  }

  lemma RollBackFails(c: Ctl, previous: Streams, sdk: Sdk)
    requires Sound(c)
    ensures var e := RollBack(c, previous, sdk);
            !e.ok && e.ctl.tick >= c.tick && Bad(e.ctl.trace) >= Bad(c.trace)
  {
    StopMakesItsCalls(c, sdk);
    RecoverEnds(Rebased(Stop(c, sdk).ctl.(enabled := previous)), sdk);
  }

  lemma ReconfigureHonest(c: Ctl, command: StreamCommand, selected: Streams, sdk: Sdk)
    requires Sound(c)
    ensures var combined := c.(enabled := Combined(c.enabled, command, selected));
            Honest(c, Reconfigure(c, command, selected, sdk), StartScript(combined) + [PublishState], sdk)
    ensures Reconfigure(c, command, selected, sdk).ctl.tick >= c.tick
  {
    var combined := Rebased(c.(enabled := Combined(c.enabled, command, selected)));
    var restarted := Restart(combined, sdk);
    RestartMakesItsCalls(combined, sdk);
    RestartFacts(combined, sdk);
    var script := StartScript(combined) + [PublishState];
    if restarted.ok {
      StraightIsHonest(combined, restarted, script, sdk);
    } else {
      RollBackFails(restarted.ctl, c.enabled, sdk);
      HonestFailure(combined, restarted, Reconfigure(c, command, selected, sdk), script, script, sdk);
    }
  }

  /**
   * applyStreamCommand refuses at once what it cannot accept. Otherwise it succeeds exactly if no call
   * of it goes wrong, and then it has announced, stopped, started the new configuration and reported.
   */
  lemma ApplySucceedsExactly(c: Ctl, command: StreamCommand, selected: Streams, sdk: Sdk)
    requires Sound(c)
    ensures var e := Apply(c, command, selected, sdk);
            if Acceptable(c, command, selected) then Honest(c, e, ApplyScript(c, command, selected), sdk)
            else e == Exit(c, false)
  {
    if Acceptable(c, command, selected) {
      PauseMakesItsCalls(c, sdk);
      var paused, e := Paused(c, sdk), Apply(c, command, selected, sdk);
      if paused.ok {
        PausedScript(c, sdk);
        PausedReconfiguredScript(c, paused.ctl, command, selected);
        ReconfigureHonest(paused.ctl, command, selected, sdk);
        HonestThen(c, paused, e, PauseScript(c),
                   StartScript(ReconfiguredState(c, command, selected)) + [PublishState], sdk);
      } else {
        HonestFailure(c, paused, e, PauseScript(c), ApplyScript(c, command, selected), sdk);
      }
    }
  }

  lemma PausedReconfiguredScript(c: Ctl, paused: Ctl, command: StreamCommand, selected: Streams)
    requires Kept(c, paused) && paused.active == NONE && !paused.roverActive
    ensures StartScript(paused.(enabled := Combined(paused.enabled, command, selected)))
         == StartScript(ReconfiguredState(c, command, selected))
  {
  }

  /**
   * It turns fatal exactly if it ends with a call of the rollback that goes wrong. A failure that is not
   * fatal ends with a rollback that went well, unless it was the pause that failed.
   */
  lemma ApplyFatalExactly(c: Ctl, command: StreamCommand, selected: Streams, sdk: Sdk)
    requires Sound(c) && !c.fatal && Acceptable(c, command, selected)
    ensures var e := Apply(c, command, selected, sdk);
            var t := TallyOf(c, e.ctl);
            && 0 <= t.bad <= 3
            && t.operations == 0 && t.closings == 0
            && (e.ctl.fatal <==> t.bad >= 2 && LastBad(e.ctl.trace))
            && (!e.ok && !e.ctl.fatal && LastBad(e.ctl.trace) <==> !Paused(c, sdk).ok)
            && t.rebases == (if !Paused(c, sdk).ok then 0 else if e.ok then 1 else 2)
  {
    PauseMakesItsCalls(c, sdk);
    PausedFacts(c, sdk);
    var paused := Paused(c, sdk);
    if paused.ok {
      ReconfigureOutcome(paused.ctl, command, selected, sdk);
    }
  }

  lemma ReconfigureOutcome(c: Ctl, command: StreamCommand, selected: Streams, sdk: Sdk)
    requires Sound(c) && !c.fatal
    ensures var e := Reconfigure(c, command, selected, sdk);
            var t := TallyOf(c, e.ctl);
            && 0 <= t.bad <= 3 && t.operations == 0 && t.closings == 0
            && (e.ctl.fatal <==> t.bad >= 2 && LastBad(e.ctl.trace))
            && (LastBad(e.ctl.trace) ==> e.ctl.fatal)
            && t.rebases == (if e.ok then 1 else 2)
  {
    var combined := Rebased(c.(enabled := Combined(c.enabled, command, selected)));
    RestartMakesItsCalls(combined, sdk);
    RestartFacts(combined, sdk);
    var restarted := Restart(combined, sdk);
    if restarted.ok {
      RestartEnds(combined, sdk);
    } else {
      RollBackMakesItsCalls(restarted.ctl, c.enabled, sdk);
    }
  }

  // ---- reopenControlClient ----

  /** A reopened session has stream objects for exactly the configured streams, a failed one has none. */
  lemma ReopenedObjects(c: Ctl, sdk: Sdk)
    ensures var e := Reopen(c, sdk);
            && e.ctl.imuObject == (e.ok && c.enabled.imu) && e.ctl.lidarObject == (e.ok && c.enabled.lidar)
  {
  }

  // ---- setRoverRtcm ----

  /**
   * One call, and success exactly if it is done. The rover flag and its configuration then say what the
   * device reported; a call that raises changes neither.
   */
  lemma RoverOutcome(c: Ctl, enable: bool, sdk: Sdk)
    ensures var e := SetRover(c, enable, sdk);
            && e.ctl.trace == Called(c.trace, SwitchRover(enable), sdk(c.tick)) && e.ctl.tick == c.tick + 1
            && (e.ok <==> sdk(c.tick).Done?)
            && (e.ok ==> e.ctl.roverActive == e.ctl.roverEnabled == enable)
            && (sdk(c.tick).Refused? ==> e.ctl.roverActive == e.ctl.roverEnabled != enable)
            && (sdk(c.tick).Raises() ==> e.ctl.roverActive == c.roverActive && e.ctl.roverEnabled == c.roverEnabled)
  {
  }

  // ---- what a command configures ----

  /** The configuration after an accepted command, stream by stream. */
  lemma Configures(c: Ctl, command: StreamCommand, selected: Streams, sdk: Sdk)
    requires Sound(c) && Apply(c, command, selected, sdk).ok
    ensures var before, after := c.enabled, Apply(c, command, selected, sdk).ctl.enabled;
            match command
            case StartStreams =>
              && after.camera == (before.camera || selected.camera)
              && after.imu == (before.imu || selected.imu) && after.lidar == (before.lidar || selected.lidar)
            case StopStreams =>
              && after.camera == (before.camera && !selected.camera)
              && after.imu == (before.imu && !selected.imu) && after.lidar == (before.lidar && !selected.lidar)
            case RestartStreams => after == before
  {
    ApplyOutcome(c, command, selected, sdk);
  }

  /** Rejected without a call: nothing selected, or the restart of a stream that is not configured. */
  lemma RejectsExactly(c: Ctl, command: StreamCommand, selected: Streams, sdk: Sdk)
    requires Sound(c)
    ensures Apply(c, command, selected, sdk).ctl.tick == c.tick <==>
              || !(selected.camera || selected.imu || selected.lidar)
              || (command == RestartStreams
                  && ((selected.camera && !c.enabled.camera) || (selected.imu && !c.enabled.imu)
                      || (selected.lidar && !c.enabled.lidar)))
  {
    if Acceptable(c, command, selected) {
      PauseMakesItsCalls(c, sdk);
      CallMade(c, sdk, PublishState);
      var announced, paused := Call(c, sdk, PublishState), Paused(c, sdk);
      StopMakesItsCalls(announced.ctl, sdk);
      PausedFacts(c, sdk);
      if paused.ok {
        ReconfigureHonest(paused.ctl, command, selected, sdk);
      }
    }
  }
}
