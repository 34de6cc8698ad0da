// driver.cpp, the stream control of the receive thread: start, stop, idle operations, time
// synchronization and stream commands, where every SDK call and status callback may throw.
module StreamControl {
  /**
   * What an SDK call does: succeed, report "not enabled", throw and change nothing, or do its work on
   * the device and throw afterwards (an answer that got lost).
   */
  datatype Outcome = Done | Refused | Throws | Lost {
    predicate Raises() {
      Throws? || Lost?
    }
  }

  /** The environment: the outcome of the n-th call. */
  type Sdk = nat -> Outcome

  datatype Streams = Streams(camera: bool, imu: bool, lidar: bool) {
    function Plus(s: Streams): Streams {
      Streams(camera || s.camera, imu || s.imu, lidar || s.lidar)
    }

    function Minus(s: Streams): Streams {
      Streams(camera && !s.camera, imu && !s.imu, lidar && !s.lidar)
    }

    predicate Within(s: Streams) {
      (camera ==> s.camera) && (imu ==> s.imu) && (lidar ==> s.lidar)
    }
  }

  const NONE := Streams(false, false, false)
  const LIDAR := Streams(false, false, true)

  /** What the device streamed at certain moments, latest last. */
  datatype History = Nothing | After(before: History, device: Streams)

  /** The calls that leave the driver's control thread. */
  datatype SdkCall =
    | PublishState | CameraOn | ImuOn | AwaitReference | RoverOn | LidarOn
    | RoverOff | LidarOff | ImuOff | CameraOff
    | Operation | CloseClient | OpenClient | KeepAlive
    | ReadInfo(boardNeeded: bool)              // deviceInfo; refused is an offline sensor board
    | ReadTiming                               // gnssTimingStatus; refused is an external GNSS lock
    | SwitchRover(enable: bool)

  /** The calls made and what came of them, latest last. */
  datatype Trace = NoCalls | Called(before: Trace, call: SdkCall, outcome: Outcome)

  /** The control fields of the driver, the device, and how many calls were made. */
  datatype Ctl = Ctl(
    enabled: Streams, roverEnabled: bool,      // config.enable_*
    active: Streams, roverActive: bool,        // *_started
    imuObject: bool, lidarObject: bool,        // the SDK stream objects exist
    fatal: bool,                               // fatal_control_error is set
    device: Streams,                           // what the device really streams
    tick: nat,
    trace: Trace,                              // history: the calls made
    watched: Streams,                          // the silence check of the stream is armed
    idleRuns: History,                         // history: device at each idle operation
    discards: History,                         // history: device at each reset of the frame accumulator
    rebases: History)                          // history: device at each reset of assembler and resolver

  function Initial(enabled: Streams, roverEnabled: bool): Ctl {
    Ctl(enabled, roverEnabled, NONE, false, false, false, false, NONE, 0, NoCalls, NONE, Nothing, Nothing, Nothing)
  }

  datatype Exit = Exit(ctl: Ctl, ok: bool)

  /** The next call is made. */
  function Tick(c: Ctl, sdk: Sdk, call: SdkCall): Ctl {
    c.(tick := c.tick + 1, trace := Called(c.trace, call, sdk(c.tick)))
  }

  // ---- the operations as functions of the fields and the environment ----

  /** A call whose only visible effect is that it may throw. */
  function Call(c: Ctl, sdk: Sdk, call: SdkCall): Exit {
    Exit(Tick(c, sdk, call), !sdk(c.tick).Raises())
  }

  /** A call that brings the device to the given state, unless it throws before that. */
  function Performed(c: Ctl, sdk: Sdk, call: SdkCall, device: Streams): Ctl {
    Tick(c, sdk, call).(device := if sdk(c.tick).Throws? then c.device else device)
  }

  /** camera_assembler.reset() and device_time_resolver.reset(). */
  function Rebased(c: Ctl): Ctl {
    c.(rebases := After(c.rebases, c.device))
  }

  function EnsureObjects(c: Ctl): Ctl {
    c.(imuObject := c.imuObject || c.enabled.imu, lidarObject := c.lidarObject || c.enabled.lidar)
  }

  function StartCamera(c: Ctl, sdk: Sdk): Exit {
    if !c.enabled.camera || c.active.camera then Exit(c, true)
    else if sdk(c.tick).Refused? then Exit(Tick(c, sdk, CameraOn), false)
    else
      var done := Performed(c, sdk, CameraOn, c.device.(camera := true));
      if sdk(c.tick).Raises() then Exit(done, false)
      else Exit(done.(active := c.active.(camera := true), watched := c.watched.(camera := true)), true)
  }

  function StartImu(c: Ctl, sdk: Sdk): Exit {
    if !c.enabled.imu || c.active.imu then Exit(c, true)
    else if !c.imuObject then Exit(c, false)
    else
      var done := Performed(c, sdk, ImuOn, c.device.(imu := true)).(watched := c.watched.(imu := true));
      if sdk(c.tick).Raises() then Exit(done, false)
      else Exit(done.(active := c.active.(imu := true)), true)
  }

  /** establishDeviceTimeReference. */
  function Establish(c: Ctl, sdk: Sdk): Exit {
    if c.enabled.camera || c.enabled.imu then Call(c, sdk, AwaitReference) else Exit(c, true)
  }

  function StartRover(c: Ctl, sdk: Sdk): Exit {
    if !c.roverEnabled || c.roverActive then Exit(c, true)
    else
      match sdk(c.tick)
      case Refused => Exit(Tick(c, sdk, RoverOn).(roverActive := false), false)
      case Done => Exit(Tick(c, sdk, RoverOn).(roverActive := true), true)
      case _ => Exit(Tick(c, sdk, RoverOn), false)
  }

  function StartLidar(c: Ctl, sdk: Sdk): Exit {
    if !c.enabled.lidar || c.active.lidar then Exit(c, true)
    else if !c.lidarObject then Exit(c, false)
    else
      var done := Performed(c, sdk, LidarOn, c.device.(lidar := true))
                    .(discards := After(c.discards, c.device), watched := c.watched.(lidar := true));
      if sdk(c.tick).Raises() then Exit(done, false)
      else Exit(done.(active := c.active.(lidar := true)), true)
  }

  /** The capture part of startConfiguredStreams: camera, then board IMU. */
  function StartCapture(c: Ctl, sdk: Sdk): Exit {
    var camera := StartCamera(c, sdk);
    if camera.ok then StartImu(camera.ctl, sdk) else camera
  }

  /** The rest of startConfiguredStreams: time reference, rover, LiDAR. */
  function StartRest(c: Ctl, sdk: Sdk): Exit {
    var reference := Establish(c, sdk);
    if !reference.ok then reference else
    var rover := StartRover(reference.ctl, sdk);
    if rover.ok then StartLidar(rover.ctl, sdk) else rover
  }

  /** startConfiguredStreams: stops at the first throw. */
  function Start(c: Ctl, sdk: Sdk): Exit {
    var capture := StartCapture(EnsureObjects(c), sdk);
    if capture.ok then StartRest(capture.ctl, sdk) else capture
  }

  function StopRover(c: Ctl, sdk: Sdk): Exit {
    if !c.roverActive then Exit(c, true)
    else if sdk(c.tick).Raises() then Exit(Tick(c, sdk, RoverOff), false)
    else Exit(Tick(c, sdk, RoverOff).(roverActive := false), true)
  }

  function StopLidar(c: Ctl, sdk: Sdk): Exit {
    if !c.active.lidar || !c.lidarObject then Exit(c, true)
    else
      var off := c.device.(lidar := false);
      var done := Performed(c, sdk, LidarOff, off);
      if sdk(c.tick).Raises() then Exit(done, false)
      else Exit(done.(active := c.active.(lidar := false), discards := After(c.discards, off)), true)
  }

  /** Camera and board IMU share one session: either stop call ends both on the device. */
  function StopCapture(c: Ctl, sdk: Sdk): Exit {
    var off := c.device.(camera := false, imu := false);
    if c.active.imu && c.imuObject then
      var done := Performed(c, sdk, ImuOff, off);
      if sdk(c.tick).Raises() then Exit(done, false)
      else Exit(done.(active := c.active.(camera := false, imu := false)), true)
    else if c.active.camera then
      var done := Performed(c, sdk, CameraOff, off);
      if sdk(c.tick).Raises() then Exit(done, false)
      else Exit(done.(active := c.active.(camera := false)), true)
    else Exit(c, true)
  }

  /** disableCaptureHealth. */
  function Unwatched(c: Ctl): Ctl {
    c.(watched := NONE)
  }

  /** stopConfiguredStreams. */
  function Stop(c: Ctl, sdk: Sdk): Exit {
    var rover := StopRover(Unwatched(c), sdk);
    if !rover.ok then rover else
    var lidar := StopLidar(rover.ctl, sdk);
    if !lidar.ok then lidar else
    StopCapture(lidar.ctl, sdk)
  }

  /** startConfiguredStreams, then publishStatus. */
  function Restart(c: Ctl, sdk: Sdk): Exit {
    var started := Start(c, sdk);
    if !started.ok then started else Call(started.ctl, sdk, PublishState)
  }

  /** What is left after a recovery attempt: still a failure, and fatal if the attempt threw too. */
  function Settled(attempt: Exit): Exit {
    if attempt.ok then Exit(attempt.ctl, false) else Exit(attempt.ctl.(fatal := true), false)
  }

  /** A failure of the attempt itself is fatal. */
  function Final(attempt: Exit): Exit {
    if attempt.ok then attempt else Exit(attempt.ctl.(fatal := true), false)
  }

  /** The catch blocks' "start the streams again". */
  function Recover(c: Ctl, sdk: Sdk): Exit {
    Settled(Restart(c, sdk))
  }

  /** The operation itself, with a note of what the device was doing. */
  function Operate(c: Ctl, sdk: Sdk): Exit {
    Call(c.(idleRuns := After(c.idleRuns, c.device)), sdk, Operation)
  }

  /** runIdleOperation after the streams were stopped. */
  function OperateAndRestart(c: Ctl, sdk: Sdk): Exit {
    var done := Operate(c, sdk);
    if done.ok then Final(Restart(done.ctl, sdk))
    else if done.ctl.fatal then done
    else Recover(done.ctl, sdk)
  }

  /** runIdleOperation. */
  function RunIdle(c: Ctl, sdk: Sdk): Exit {
    var announced := Call(c, sdk, PublishState);
    if !announced.ok then announced else
    var stopped := Stop(announced.ctl, sdk);
    if stopped.ok then OperateAndRestart(Rebased(stopped.ctl), sdk) else Recover(stopped.ctl, sdk)
  }

  /** The old stream objects go; close, openClient and setKeepaliveEnabled may throw. */
  function ReopenSession(c: Ctl, sdk: Sdk): Exit {
    var closed := Call(c.(imuObject := false, lidarObject := false), sdk, CloseClient);
    if !closed.ok then closed else
    var reopened := Call(closed.ctl, sdk, OpenClient);
    if reopened.ok then Call(reopened.ctl, sdk, KeepAlive) else reopened
  }

  /** reopenControlClient; a refused deviceInfo stands for an offline sensor board. */
  function Reopen(c: Ctl, sdk: Sdk): Exit {
    var alive := ReopenSession(c, sdk);
    if !alive.ok then alive else
    var info := sdk(alive.ctl.tick);
    var boardNeeded := alive.ctl.enabled.camera || alive.ctl.enabled.imu;
    var asked := Tick(alive.ctl, sdk, ReadInfo(boardNeeded));
    if info.Raises() || (info.Refused? && boardNeeded) then Exit(asked, false)
    else Exit(EnsureObjects(asked), true)
  }

  function ReopenAndStart(c: Ctl, sdk: Sdk): Exit {
    var reopened := Reopen(c, sdk);
    if !reopened.ok then reopened else Start(reopened.ctl, sdk)
  }

  function ReopenAndRestart(c: Ctl, sdk: Sdk): Exit {
    var started := ReopenAndStart(c, sdk);
    if !started.ok then started else Call(started.ctl, sdk, PublishState)
  }

  /** synchronizeSystemTime after the streams were stopped. */
  function SyncAndReopen(c: Ctl, sdk: Sdk): Exit {
    var done := Operate(c, sdk);
    if !done.ok then Settled(ReopenAndRestart(done.ctl, sdk)) else
    var started := Final(ReopenAndStart(done.ctl, sdk));
    if started.ok then Call(started.ctl, sdk, PublishState) else started
  }

  /** synchronizeSystemTime; a refused first call stands for an external GNSS lock. */
  function SyncTime(c: Ctl, sdk: Sdk): Exit {
    var asked := Tick(c, sdk, ReadTiming);
    if !sdk(c.tick).Done? then Exit(asked, false) else
    var announced := Call(asked, sdk, PublishState);
    if !announced.ok then announced else
    var stopped := Stop(announced.ctl, sdk);
    if stopped.ok then SyncAndReopen(Rebased(stopped.ctl), sdk) else Recover(stopped.ctl, sdk)
  }

  datatype StreamCommand = StartStreams | StopStreams | RestartStreams

  function Combined(enabled: Streams, command: StreamCommand, selected: Streams): Streams {
    match command
    case StartStreams => enabled.Plus(selected)
    case StopStreams => enabled.Minus(selected)
    case RestartStreams => enabled
  }

  predicate Acceptable(c: Ctl, command: StreamCommand, selected: Streams) {
    selected != NONE && (command.RestartStreams? ==> selected.Within(c.enabled))
  }

  /** The state in which the new configuration is started; not ok if the first stop threw. */
  function Paused(c: Ctl, sdk: Sdk): Exit {
    var announced := Call(c, sdk, PublishState);
    if !announced.ok then announced else Stop(announced.ctl, sdk)
  }

  /** The catch block of applyStreamCommand: a throw of its stop is swallowed. */
  function RollBack(c: Ctl, previous: Streams, sdk: Sdk): Exit {
    Recover(Rebased(Stop(c, sdk).ctl.(enabled := previous)), sdk)
  }

  /** applyStreamCommand after the first stop. */
  function Reconfigure(c: Ctl, command: StreamCommand, selected: Streams, sdk: Sdk): Exit {
    var restarted := Restart(Rebased(c.(enabled := Combined(c.enabled, command, selected))), sdk);
    if restarted.ok then restarted else RollBack(restarted.ctl, c.enabled, sdk)
  }

  /** applyStreamCommand. */
  function Apply(c: Ctl, command: StreamCommand, selected: Streams, sdk: Sdk): Exit {
    if !Acceptable(c, command, selected) then Exit(c, false) else
    var paused := Paused(c, sdk);
    if paused.ok then Reconfigure(paused.ctl, command, selected, sdk) else paused
  }

  /** setRoverRtcm. */
  function SetRover(c: Ctl, enable: bool, sdk: Sdk): Exit {
    var asked := Tick(c, sdk, SwitchRover(enable));
    match sdk(c.tick)
    case Done => Exit(asked.(roverActive := enable, roverEnabled := enable), true)
    case Refused => Exit(asked.(roverActive := !enable, roverEnabled := !enable), false)
    case _ => Exit(asked, false)
  }

  // ---- the class ----

  class StreamController {
    const sdk: Sdk
    const rkLocal: bool          // built for the RK itself
    var enabled: Streams
    var roverEnabled: bool
    var active: Streams
    var roverActive: bool
    var imuObject: bool
    var lidarObject: bool
    var fatal: bool
    ghost var device: Streams
    var tick: nat
    ghost var trace: Trace
    var watched: Streams
    ghost var idleRuns: History
    ghost var discards: History
    ghost var rebases: History

    ghost function State(): Ctl
      reads this
    {
      Ctl(enabled, roverEnabled, active, roverActive, imuObject, lidarObject, fatal, device, tick,
          trace, watched, idleRuns, discards, rebases)
    }

    constructor (sdk: Sdk, rkLocal: bool, enabled: Streams, roverEnabled: bool)
      ensures this.sdk == sdk && this.rkLocal == rkLocal
      ensures State() == Initial(enabled, roverEnabled)
    {
      this.sdk, this.rkLocal, this.enabled, this.roverEnabled := sdk, rkLocal, enabled, roverEnabled;
      active, roverActive, imuObject, lidarObject, fatal := NONE, false, false, false, false;
      device, tick, trace, watched := NONE, 0, NoCalls, NONE;
      idleRuns, discards, rebases := Nothing, Nothing, Nothing;
    }

    method Ask(ghost call: SdkCall) returns (outcome: Outcome)
      modifies this`tick, this`trace
      ensures outcome == sdk(old(tick)) && State() == Tick(old(State()), sdk, call)
    {
      outcome := sdk(tick);
      trace := Called(trace, call, outcome);
      tick := tick + 1;
    }

    /** A call that brings the device to the given state. */
    method AskFor(ghost call: SdkCall, ghost wanted: Streams) returns (outcome: Outcome)
      modifies this`tick, this`trace, this`device
      ensures outcome == sdk(old(tick)) && State() == Performed(old(State()), sdk, call, wanted)
    {
      outcome := Ask(call);
      if !outcome.Throws? {
        device := wanted;
      }
    }

    method PublishStatus() returns (ok: bool)
      modifies this
      ensures Exit(State(), ok) == Call(old(State()), sdk, PublishState)
    {
      var outcome := Ask(PublishState);
      ok := !outcome.Raises();
    }

    method EnsureStreamObjects()
      modifies this
      ensures State() == EnsureObjects(old(State()))
    {
      if enabled.imu && !imuObject {
        imuObject := true;
      }
      if enabled.lidar && !lidarObject {
        lidarObject := true;
      }
    }

    method StartCameraStream() returns (ok: bool)
      modifies this
      ensures Exit(State(), ok) == StartCamera(old(State()), sdk)
    {
      if enabled.camera && !active.camera {
        var video := AskFor(CameraOn, if sdk(tick).Refused? then device else device.(camera := true));
        if video.Raises() {
          return false;
        }
        assert active.(camera := false) == active;
        active := active.(camera := video.Done?);
        if video.Refused? {
          return false;
        }
        watched := watched.(camera := true);
      }
      ok := true;
    }

    method StartImuStream() returns (ok: bool)
      modifies this
      ensures Exit(State(), ok) == StartImu(old(State()), sdk)
    {
      if enabled.imu && !active.imu {
        if !imuObject {
          return false;
        }
        watched := watched.(imu := true);
        var outcome := AskFor(ImuOn, device.(imu := true));
        if outcome.Raises() {
          return false;
        }
        active := active.(imu := true);
      }
      ok := true;
    }

    method StartCaptureStreams() returns (ok: bool)
      modifies this
      ensures Exit(State(), ok) == StartCapture(old(State()), sdk)
    {
      ok := StartCameraStream();
      if ok {
        ok := StartImuStream();
      }
    }

    method EstablishReference() returns (ok: bool)
      modifies this
      ensures Exit(State(), ok) == Establish(old(State()), sdk)
    {
      ok := true;
      if enabled.camera || enabled.imu {
        var outcome := Ask(AwaitReference);
        ok := !outcome.Raises();
      }
    }

    method StartRoverStream() returns (ok: bool)
      modifies this
      ensures Exit(State(), ok) == StartRover(old(State()), sdk)
    {
      if roverEnabled && !roverActive {
        var rover := Ask(RoverOn);
        if rover.Raises() {
          return false;
        }
        roverActive := rover.Done?;
        if !roverActive {
          return false;
        }
      }
      ok := true;
    }

    method StartLidarStream() returns (ok: bool)
      modifies this
      ensures Exit(State(), ok) == StartLidar(old(State()), sdk)
    {
      if enabled.lidar && !active.lidar {
        if !lidarObject {
          return false;
        }
        discards := After(discards, device);
        watched := watched.(lidar := true);
        var outcome := AskFor(LidarOn, device.(lidar := true));
        if outcome.Raises() {
          return false;
        }
        active := active.(lidar := true);
      }
      ok := true;
    }

    method StartOtherStreams() returns (ok: bool)
      modifies this
      ensures Exit(State(), ok) == StartRest(old(State()), sdk)
    {
      ok := EstablishReference();
      if ok {
        ok := StartRoverStream();
      }
      if ok {
        ok := StartLidarStream();
      }
    }

    method StartConfiguredStreams() returns (ok: bool)
      modifies this
      ensures Exit(State(), ok) == Start(old(State()), sdk)
    {
      EnsureStreamObjects();
      ok := StartCaptureStreams();
      if ok {
        ok := StartOtherStreams();
      }
    }

    method StopRoverStream() returns (ok: bool)
      modifies this`roverActive, this`tick, this`trace
      ensures Exit(State(), ok) == StopRover(old(State()), sdk)
    {
      if roverActive {
        var outcome := Ask(RoverOff);
        if outcome.Raises() {
          return false;
        }
        roverActive := false;
      }
      ok := true;
    }

    method StopLidarStream() returns (ok: bool)
      modifies this`active, this`device, this`tick, this`trace, this`discards
      ensures Exit(State(), ok) == StopLidar(old(State()), sdk)
    {
      if active.lidar && lidarObject {
        var outcome := AskFor(LidarOff, device.(lidar := false));
        if outcome.Raises() {
          return false;
        }
        active := active.(lidar := false);
        discards := After(discards, device);
      }
      ok := true;
    }

    method StopCaptureStreams() returns (ok: bool)
      modifies this`active, this`device, this`tick, this`trace
      ensures Exit(State(), ok) == StopCapture(old(State()), sdk)
    {
      if active.imu && imuObject {
        var outcome := AskFor(ImuOff, device.(camera := false, imu := false));
        if outcome.Raises() {
          return false;
        }
        active := active.(imu := false);
        active := active.(camera := false);
      } else if active.camera {
        var outcome := AskFor(CameraOff, device.(camera := false, imu := false));
        if outcome.Raises() {
          return false;
        }
        active := active.(camera := false);
      }
      ok := true;
    }

    method StopConfiguredStreams() returns (ok: bool)
      modifies this
      ensures Exit(State(), ok) == Stop(old(State()), sdk)
    {
      watched := NONE;
      ok := StopRoverStream();
      if ok {
        ok := StopLidarStream();
      }
      if ok {
        ok := StopCaptureStreams();
      }
    }

    method RestartAndPublish() returns (ok: bool)
      modifies this
      ensures Exit(State(), ok) == Restart(old(State()), sdk)
    {
      ok := StartConfiguredStreams();
      if ok {
        ok := PublishStatus();
      }
    }

    /** The recovery in a catch block; its caller rethrows. */
    method RecoverStreams()
      modifies this
      ensures Exit(State(), false) == Recover(old(State()), sdk)
    {
      var recovered := RestartAndPublish();
      if !recovered {
        fatal := true;
      }
    }

    method RunOperation() returns (ok: bool)
      modifies this
      ensures Exit(State(), ok) == Operate(old(State()), sdk)
    {
      idleRuns := After(idleRuns, device);
      var outcome := Ask(Operation);
      ok := !outcome.Raises();
    }

    method OperateIdle() returns (ok: bool)
      modifies this
      ensures Exit(State(), ok) == OperateAndRestart(old(State()), sdk)
    {
      ok := RunOperation();
      if ok {
        ok := RestartAndPublish();
        if !ok {
          fatal := true;
        }
        return;
      }
      if !fatal {
        RecoverStreams();
      }
    }

    method RunIdleOperation() returns (ok: bool)
      modifies this
      ensures Exit(State(), ok) == RunIdle(old(State()), sdk)
    {
      ok := PublishStatus();
      if !ok {
        return;
      }
      ok := StopConfiguredStreams();
      if !ok {
        RecoverStreams();
        return;
      }
      rebases := After(rebases, device);
      ok := OperateIdle();
    }

    method ReopenClient() returns (ok: bool)
      modifies this
      ensures Exit(State(), ok) == ReopenSession(old(State()), sdk)
    {
      imuObject := false;
      lidarObject := false;
      var closed := Ask(CloseClient);
      if closed.Raises() {
        return false;
      }
      var reopened := Ask(OpenClient);
      if reopened.Raises() {
        return false;
      }
      var alive := Ask(KeepAlive);
      ok := !alive.Raises();
    }

    method ReopenControlClient() returns (ok: bool)
      modifies this
      ensures Exit(State(), ok) == Reopen(old(State()), sdk)
    {
      ok := ReopenClient();
      if !ok {
        return;
      }
      var info := Ask(ReadInfo(enabled.camera || enabled.imu));
      if info.Raises() || (info.Refused? && (enabled.camera || enabled.imu)) {
        return false;
      }
      EnsureStreamObjects();
    }

    method ReopenAndStartStreams() returns (ok: bool)
      modifies this
      ensures Exit(State(), ok) == ReopenAndStart(old(State()), sdk)
    {
      ok := ReopenControlClient();
      if ok {
        ok := StartConfiguredStreams();
      }
    }

    /** The recovery after a failed synchronization; its caller rethrows. */
    method ReopenAndRecover()
      modifies this
      ensures Exit(State(), false) == Settled(ReopenAndRestart(old(State()), sdk))
    {
      var ok := ReopenAndStartStreams();
      if ok {
        ok := PublishStatus();
      }
      if !ok {
        fatal := true;
      }
    }

    method SyncIdle() returns (ok: bool)
      modifies this
      ensures Exit(State(), ok) == SyncAndReopen(old(State()), sdk)
    {
      ok := RunOperation();
      if !ok {
        ReopenAndRecover();
        return;
      }
      ok := ReopenAndStartStreams();
      if !ok {
        fatal := true;
        return;
      }
      ok := PublishStatus();
    }

    /** On the RK itself host and device share a clock, and the command throws at once. */
    method SynchronizeSystemTime() returns (ok: bool)
      modifies this
      ensures Exit(State(), ok) == if rkLocal then Exit(old(State()), false) else SyncTime(old(State()), sdk)
    {
      if rkLocal {
        return false;
      }
      var timing := Ask(ReadTiming);
      if !timing.Done? {
        return false;
      }
      ok := PublishStatus();
      if !ok {
        return;
      }
      ok := StopConfiguredStreams();
      if !ok {
        RecoverStreams();
        return;
      }
      rebases := After(rebases, device);
      ok := SyncIdle();
    }

    method RollBackTo(previous: Streams)
      modifies this
      ensures Exit(State(), false) == RollBack(old(State()), previous, sdk)
    {
      var stopped := StopConfiguredStreams();   // a throw here is swallowed
      enabled := previous;
      rebases := After(rebases, device);
      RecoverStreams();
    }

    method StartReconfigured(command: StreamCommand, selected: Streams) returns (ok: bool)
      modifies this
      ensures Exit(State(), ok) == Reconfigure(old(State()), command, selected, sdk)
    {
      var previous := enabled;
      if command.StartStreams? {
        enabled := enabled.Plus(selected);
      } else if command.StopStreams? {
        enabled := enabled.Minus(selected);
      }
      rebases := After(rebases, device);
      assert State() == Rebased(old(State()).(enabled := Combined(previous, command, selected)));
      ok := RestartAndPublish();
      if !ok {
        RollBackTo(previous);
      }
    }

    method ApplyStreamCommand(command: StreamCommand, selected: Streams) returns (ok: bool)
      modifies this
      ensures Exit(State(), ok) == Apply(old(State()), command, selected, sdk)
    {
      if selected == NONE {
        return false;
      }
      if command.RestartStreams? && !selected.Within(enabled) {
        return false;
      }
      ok := PublishStatus();
      if !ok {
        return;
      }
      ok := StopConfiguredStreams();
      if !ok {
        return;
      }
      ok := StartReconfigured(command, selected);
    }

    method SetRoverRtcm(enable: bool) returns (ok: bool)
      modifies this
      ensures Exit(State(), ok) == SetRover(old(State()), enable, sdk)
    {
      var status := Ask(SwitchRover(enable));
      if status.Raises() {
        return false;
      }
      roverActive := if status.Done? then enable else !enable;
      roverEnabled := roverActive;
      ok := roverActive == enable;
    }
  }
}
