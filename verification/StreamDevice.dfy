// What the device really streams: exactly what the flags say, until a call that throws took effect.
module StreamDevice {
  import opened StreamControl
  import opened StreamPhases
  import opened StreamSafety

  predicate AlwaysSilent(h: History) {
    h.After? ==> h.device == NONE && AlwaysSilent(h.before)
  }

  predicate LidarAlwaysOff(h: History) {
    h.After? ==> !h.device.lidar && LidarAlwaysOff(h.before)
  }

  // ---- as long as a call that throws changes nothing ----

  /** A call that throws has not taken effect. */
  ghost predicate Honest(sdk: Sdk) {
    forall n: nat :: !sdk(n).Lost?
  }

  /** The flags tell what streams, and pending LiDAR points were only discarded while LiDAR did not. */
  predicate InTune(c: Ctl) {
    Sound(c) && c.device == c.active && LidarAlwaysOff(c.discards)
  }

  /** And idle operations only ever saw a silent device. */
  predicate Truthful(c: Ctl) {
    InTune(c) && AlwaysSilent(c.idleRuns)
  }

  lemma CaptureTune(c: Ctl, sdk: Sdk)
    requires InTune(c) && Honest(sdk)
    ensures InTune(StartCapture(c, sdk).ctl)
  {
    CameraEffect(c, sdk);
    var camera := StartCamera(c, sdk);
    assert InTune(camera.ctl);
    ImuEffect(camera.ctl, sdk);
  }

  lemma RestTune(c: Ctl, sdk: Sdk)
    requires InTune(c) && Honest(sdk)
    ensures InTune(StartRest(c, sdk).ctl)
  {
    EstablishEffect(c, sdk);
    var reference := Establish(c, sdk);
    RoverEffect(reference.ctl, sdk);
    var rover := StartRover(reference.ctl, sdk);
    assert InTune(rover.ctl);
    LidarEffect(rover.ctl, sdk);
  }

  lemma StartTune(c: Ctl, sdk: Sdk)
    requires InTune(c) && Honest(sdk)
    ensures InTune(Start(c, sdk).ctl)
  {
    var ready := EnsureObjects(c);
    CaptureTune(ready, sdk);
    RestTune(StartCapture(ready, sdk).ctl, sdk);
  }

  lemma StopTune(c: Ctl, sdk: Sdk)
    requires InTune(c) && Honest(sdk)
    ensures InTune(Stop(c, sdk).ctl)
  {
    StopRoverEffect(Unwatched(c), sdk);
    var rover := StopRover(Unwatched(c), sdk);
    StopLidarEffect(rover.ctl, sdk);
    var lidar := StopLidar(rover.ctl, sdk);
    assert InTune(lidar.ctl);
    StopCaptureEffect(lidar.ctl, sdk);
  }

  lemma RestartTune(c: Ctl, sdk: Sdk)
    requires Truthful(c) && Honest(sdk)
    ensures Truthful(Restart(c, sdk).ctl) && Truthful(Recover(c, sdk).ctl)
  {
    StartTune(c, sdk);
    StartFacts(c, sdk);
  }

  lemma PauseTune(c: Ctl, sdk: Sdk)
    requires Truthful(c) && Honest(sdk)
    ensures Truthful(Stop(c, sdk).ctl)
  {
    StopTune(c, sdk);
    StopFacts(c, sdk);
  }

  lemma OperationTune(c: Ctl, sdk: Sdk)
    requires Truthful(c) && c.active == NONE && Honest(sdk)
    ensures Truthful(OperateAndRestart(c, sdk).ctl)
  {
    OperateFacts(c, sdk);
    var done := Operate(c, sdk);
    assert Truthful(done.ctl);
    RestartTune(done.ctl, sdk);
  }

  lemma RunIdleTune(c: Ctl, sdk: Sdk)
    requires Truthful(c) && Honest(sdk)
    ensures Truthful(RunIdle(c, sdk).ctl)
  {
    var announced := Call(c, sdk, PublishState);
    assert Truthful(announced.ctl);
    if announced.ok {
      PauseTune(announced.ctl, sdk);
      StopFacts(announced.ctl, sdk);
      var stopped := Stop(announced.ctl, sdk);
      if stopped.ok {
        OperationTune(Rebased(stopped.ctl), sdk);
      } else {
        RestartTune(stopped.ctl, sdk);
      }
    }
  }

  lemma ReopenTune(c: Ctl, sdk: Sdk)
    requires Truthful(c) && c.active == NONE && Honest(sdk)
    ensures Truthful(ReopenAndStart(c, sdk).ctl)
  {
    var reopened := Reopen(c, sdk);
    assert Truthful(reopened.ctl);
    StartTune(reopened.ctl, sdk);
    StartFacts(reopened.ctl, sdk);
  }

  lemma SyncOperationTune(c: Ctl, sdk: Sdk)
    requires Truthful(c) && c.active == NONE && Honest(sdk)
    ensures Truthful(SyncAndReopen(c, sdk).ctl)
  {
    OperateFacts(c, sdk);
    var done := Operate(c, sdk);
    assert Truthful(done.ctl);
    ReopenTune(done.ctl, sdk);
    AnnouncedTune(ReopenAndStart(done.ctl, sdk), sdk);
  }

  lemma AnnouncedTune(reopened: Exit, sdk: Sdk)
    requires Truthful(reopened.ctl)
    ensures Truthful(Settled(if reopened.ok then Call(reopened.ctl, sdk, PublishState) else reopened).ctl)
    ensures var started := Final(reopened);
            Truthful((if started.ok then Call(started.ctl, sdk, PublishState) else started).ctl)
  {
  }

  lemma SyncTimeTune(c: Ctl, sdk: Sdk)
    requires Truthful(c) && Honest(sdk)
    ensures Truthful(SyncTime(c, sdk).ctl)
  {
    var asked := Tick(c, sdk, ReadTiming);
    assert Truthful(asked);
    var announced := Call(asked, sdk, PublishState);
    assert Truthful(announced.ctl);
    if sdk(c.tick).Done? && announced.ok {
      PauseTune(announced.ctl, sdk);
      StopFacts(announced.ctl, sdk);
      var stopped := Stop(announced.ctl, sdk);
      if stopped.ok {
        SyncOperationTune(Rebased(stopped.ctl), sdk);
      } else {
        RestartTune(stopped.ctl, sdk);
      }
    }
  }

  lemma RollBackTune(c: Ctl, previous: Streams, sdk: Sdk)
    requires Truthful(c) && Honest(sdk)
    ensures Truthful(RollBack(c, previous, sdk).ctl)
  {
    PauseTune(c, sdk);
    RestartTune(Rebased(Stop(c, sdk).ctl.(enabled := previous)), sdk);
  }

  lemma ReconfigureTune(c: Ctl, command: StreamCommand, selected: Streams, sdk: Sdk)
    requires Truthful(c) && Honest(sdk)
    ensures Truthful(Reconfigure(c, command, selected, sdk).ctl)
  {
    var combined := Rebased(c.(enabled := Combined(c.enabled, command, selected)));
    RestartTune(combined, sdk);
    RollBackTune(Restart(combined, sdk).ctl, c.enabled, sdk);
  }

  lemma ApplyTune(c: Ctl, command: StreamCommand, selected: Streams, sdk: Sdk)
    requires Truthful(c) && Honest(sdk)
    ensures Truthful(Apply(c, command, selected, sdk).ctl)
  {
    var announced := Call(c, sdk, PublishState);
    assert Truthful(announced.ctl);
    PauseTune(announced.ctl, sdk);
    var paused := Paused(c, sdk);
    if paused.ok {
      ReconfigureTune(paused.ctl, command, selected, sdk);
    }
  }

  lemma RoverDevice(c: Ctl, enable: bool, sdk: Sdk)
    ensures var d := SetRover(c, enable, sdk).ctl;
            && d.active == c.active && d.device == c.device && d.imuObject == c.imuObject
            && d.lidarObject == c.lidarObject && d.discards == c.discards && d.idleRuns == c.idleRuns
  {
  }

  lemma ExecuteTune(c: Ctl, command: Command, sdk: Sdk)
    requires Truthful(c) && Honest(sdk)
    ensures Truthful(Execute(c, command, sdk).ctl)
  {
    match command
    case Control(kind, selected) => ApplyTune(c, kind, selected, sdk);
    case Idle => RunIdleTune(c, sdk);
    case Synchronize => SyncTimeTune(c, sdk);
    case Rover(enable) => RoverDevice(c, enable, sdk);
  }

  /**
   * Over every run in which a call that throws changes nothing: the flags equal what the device streams,
   * no idle operation met a streaming device, and no pending points were discarded while LiDAR streamed.
   */
  lemma {:induction false} AlwaysTruthful(c: Ctl, commands: seq<Command>, sdk: Sdk)
    requires Truthful(c) && Honest(sdk)
    ensures Truthful(ExecuteAll(c, commands, sdk))
  {
    if commands != [] {
      var before, last := commands[..|commands| - 1], commands[|commands| - 1];
      AlwaysTruthful(c, before, sdk);
      ExecuteTune(ExecuteAll(c, before, sdk), last, sdk);
    }
  }

  // ---- calls that take effect and throw ----

  /** The streams that a stop ends when these are flagged active: camera and board IMU go together. */
  function Reach(active: Streams): Streams {
    var capture := active.camera || active.imu;
    Streams(capture, capture, active.lidar)
  }

  /** A stop that does not throw would silence the device. */
  predicate Stoppable(c: Ctl) {
    c.device.Within(Reach(c.active))
  }

  /** Starting adds to the device, and at most the enabled streams. */
  lemma StartDevice(c: Ctl, sdk: Sdk)
    ensures c.device.Within(Start(c, sdk).ctl.device)
    ensures Start(c, sdk).ctl.device.Within(c.device.Plus(c.enabled))
  {
    var ready := EnsureObjects(c);
    CameraEffect(ready, sdk);
    var camera := StartCamera(ready, sdk);
    ImuEffect(camera.ctl, sdk);
    RestDevice(StartCapture(ready, sdk).ctl, sdk);
  }

  lemma RestDevice(c: Ctl, sdk: Sdk)
    ensures c.device.Within(StartRest(c, sdk).ctl.device)
    ensures StartRest(c, sdk).ctl.device.Within(c.device.Plus(Only(c.enabled, LIDAR)))
  {
    EstablishEffect(c, sdk);
    var reference := Establish(c, sdk);
    RoverEffect(reference.ctl, sdk);
    LidarEffect(StartRover(reference.ctl, sdk).ctl, sdk);
  }

  /** Stopping only takes from the device; a stop that does not throw takes all within reach. */
  lemma StopDevice(c: Ctl, sdk: Sdk)
    requires Sound(c)
    ensures var e := Stop(c, sdk);
            && e.ctl.device.Within(c.device)
            && (Stoppable(c) ==> Stoppable(e.ctl))
            && (e.ok && Stoppable(c) ==> e.ctl.device == NONE)
            && (!c.active.lidar ==> e.ctl.device.lidar == c.device.lidar)
            && (!c.active.camera && !c.active.imu ==>
                  e.ctl.device.camera == c.device.camera && e.ctl.device.imu == c.device.imu)
  {
    StopRoverEffect(Unwatched(c), sdk);
    var rover := StopRover(Unwatched(c), sdk);
    StopLidarEffect(rover.ctl, sdk);
    StopCaptureEffect(StopLidar(rover.ctl, sdk).ctl, sdk);
  }

  /** A restart that succeeds gets hold of everything that it and the flags can reach. */
  lemma RestartReaches(c: Ctl, sdk: Sdk)
    requires Sound(c) && c.device.Within(Reach(c.active.Plus(c.enabled)))
    ensures Restart(c, sdk).ok ==> Stoppable(Restart(c, sdk).ctl)
    ensures Recover(c, sdk).ctl.fatal || Stoppable(Recover(c, sdk).ctl)
  {
    StartDevice(c, sdk);
    StartFacts(c, sdk);
  }

  /** Fatal, or a later stop would still silence the device, and no idle operation met a streaming one. */
  predicate Held(c: Ctl, e: Exit) {
    && (e.ctl.fatal || Stoppable(e.ctl))
    && (AlwaysSilent(c.idleRuns) ==> AlwaysSilent(e.ctl.idleRuns))
  }

  lemma RecoverHeld(c: Ctl, sdk: Sdk)
    requires Sound(c) && Stoppable(c)
    ensures Held(c, Recover(c, sdk))
  {
    RestartReaches(c, sdk);
    StartFacts(c, sdk);
  }

  lemma OperationHeld(c: Ctl, sdk: Sdk)
    requires Sound(c) && c.active == NONE && c.device == NONE
    ensures Held(c, OperateAndRestart(c, sdk))
  {
    OperateFacts(c, sdk);
    var done := Operate(c, sdk);
    RestartReaches(done.ctl, sdk);
    StartFacts(done.ctl, sdk);
  }

  /** An idle operation never lets the device slip, whatever the calls do. */
  lemma RunIdleHeld(c: Ctl, sdk: Sdk)
    requires Sound(c) && Stoppable(c)
    ensures Held(c, RunIdle(c, sdk))
  {
    var announced := Call(c, sdk, PublishState);
    if announced.ok {
      StopDevice(announced.ctl, sdk);
      StopFacts(announced.ctl, sdk);
      var stopped := Stop(announced.ctl, sdk);
      if stopped.ok {
        OperationHeld(Rebased(stopped.ctl), sdk);
      } else {
        RecoverHeld(stopped.ctl, sdk);
      }
    }
  }

  lemma ReopenDevice(c: Ctl, sdk: Sdk)
    requires Sound(c) && c.active == NONE && c.device == NONE
    ensures var e := ReopenAndStart(c, sdk);
            e.ctl.idleRuns == c.idleRuns && (e.ok ==> Stoppable(e.ctl))
  {
    var reopened := Reopen(c, sdk);
    assert reopened.ctl.device == NONE && reopened.ctl.active == NONE && Kept(c, reopened.ctl);
    StartDevice(reopened.ctl, sdk);
    StartFacts(reopened.ctl, sdk);
  }

  lemma AnnouncedHeld(c: Ctl, reopened: Exit, sdk: Sdk)
    requires reopened.ctl.idleRuns == After(c.idleRuns, NONE) && (reopened.ok ==> Stoppable(reopened.ctl))
    ensures Held(c, Settled(if reopened.ok then Call(reopened.ctl, sdk, PublishState) else reopened))
    ensures var started := Final(reopened);
            Held(c, if started.ok then Call(started.ctl, sdk, PublishState) else started)
  {
  }

  lemma SyncOperationHeld(c: Ctl, sdk: Sdk)
    requires Sound(c) && c.active == NONE && c.device == NONE
    ensures Held(c, SyncAndReopen(c, sdk))
  {
    OperateFacts(c, sdk);
    var done := Operate(c, sdk);
    assert done.ctl.device == NONE;
    ReopenDevice(done.ctl, sdk);
    AnnouncedHeld(c, ReopenAndStart(done.ctl, sdk), sdk);
  }

  /** Nor does time synchronization. */
  lemma SyncTimeHeld(c: Ctl, sdk: Sdk)
    requires Sound(c) && Stoppable(c)
    ensures Held(c, SyncTime(c, sdk))
  {
    var announced := Call(Tick(c, sdk, ReadTiming), sdk, PublishState);
    if sdk(c.tick).Done? && announced.ok {
      StopDevice(announced.ctl, sdk);
      StopFacts(announced.ctl, sdk);
      var stopped := Stop(announced.ctl, sdk);
      if stopped.ok {
        SyncOperationHeld(Rebased(stopped.ctl), sdk);
      } else {
        RecoverHeld(stopped.ctl, sdk);
      }
    }
  }

  // ---- stream commands: the condition before the call ----

  /** The command brings in no session, capture or LiDAR, that was not configured already. */
  predicate WithinReach(c: Ctl, command: StreamCommand, selected: Streams) {
    Reach(Combined(c.enabled, command, selected)).Within(Reach(c.enabled))
  }

  lemma RollBackHeld(c: Ctl, previous: Streams, sdk: Sdk)
    requires Sound(c) && c.device.Within(Reach(previous))
    ensures Held(c, RollBack(c, previous, sdk))
  {
    StopDevice(c, sdk);
    StopFacts(c, sdk);
    var restored := Rebased(Stop(c, sdk).ctl.(enabled := previous));
    RestartReaches(restored, sdk);
    StartFacts(restored, sdk);
  }

  lemma ReconfigureHeld(c: Ctl, command: StreamCommand, selected: Streams, sdk: Sdk)
    requires Sound(c) && c.active == NONE && c.device == NONE && WithinReach(c, command, selected)
    ensures Held(c, Reconfigure(c, command, selected, sdk))
  {
    var combined := Rebased(c.(enabled := Combined(c.enabled, command, selected)));
    RestartReaches(combined, sdk);
    RestartedDevice(combined, sdk);
    RollBackHeld(Restart(combined, sdk).ctl, c.enabled, sdk);
  }

  lemma RestartedDevice(c: Ctl, sdk: Sdk)
    requires Sound(c) && c.device == NONE
    ensures var d := Restart(c, sdk).ctl;
            Sound(d) && d.device.Within(c.enabled) && d.idleRuns == c.idleRuns
  {
    StartDevice(c, sdk);
    StartFacts(c, sdk);
  }

  lemma ApplyHeld(c: Ctl, command: StreamCommand, selected: Streams, sdk: Sdk)
    requires Sound(c) && Stoppable(c) && (Acceptable(c, command, selected) ==> WithinReach(c, command, selected))
    ensures Held(c, Apply(c, command, selected, sdk))
  {
    var announced := Call(c, sdk, PublishState);
    if Acceptable(c, command, selected) && announced.ok {
      StopDevice(announced.ctl, sdk);
      StopFacts(announced.ctl, sdk);
      var paused := Paused(c, sdk);
      if paused.ok {
        ReconfigureHeld(paused.ctl, command, selected, sdk);
      }
    }
  }

  /** The environment whose n-th call takes effect and throws. */
  function LostAt(n: nat): Sdk {
    (k: nat) => if k == n then Lost else Done
  }

  /** Streams on the device that neither the flags nor the previous configuration can reach. */
  predicate Adrift(c: Ctl, previous: Streams) {
    !c.device.Within(Reach(c.active.Plus(previous)))
  }

  /** The rollback succeeds and leaves them streaming. */
  lemma StaysAdrift(c: Ctl, previous: Streams, sdk: Sdk)
    requires Sound(c) && !c.fatal && Adrift(c, previous)
    requires forall n: nat :: n >= c.tick ==> sdk(n).Done?
    ensures var e := RollBack(c, previous, sdk);
            !e.ctl.fatal && !Stoppable(e.ctl) && e.ctl.tick >= c.tick
  {
    QuietStop(c, sdk);
    StopFacts(c, sdk);
    StopDevice(c, sdk);
    RecoversAdrift(Rebased(Stop(c, sdk).ctl.(enabled := previous)), sdk);
  }

  lemma RecoversAdrift(c: Ctl, sdk: Sdk)
    requires Sound(c) && !c.fatal && c.active == NONE && !c.device.Within(Reach(c.enabled))
    requires forall n: nat :: n >= c.tick ==> sdk(n).Done?
    ensures var e := Recover(c, sdk); !e.ctl.fatal && !Stoppable(e.ctl) && e.ctl.tick >= c.tick
  {
    StartDevice(c, sdk);
    QuietStart(c, sdk);
    RestartSucceeds(c, sdk);
    RecoverFacts(c, sdk);
  }

  /** The first start call, of camera or board IMU, is lost. */
  lemma LostCapture(c: Ctl, sdk: Sdk)
    requires Sound(c) && c.active == NONE && (c.enabled.camera || c.enabled.imu) && sdk(c.tick).Lost?
    ensures var e := Restart(c, sdk);
            && !e.ok && Sound(e.ctl) && e.ctl.fatal == c.fatal && e.ctl.active == NONE && e.ctl.tick == c.tick + 1
            && (e.ctl.device.camera || e.ctl.device.imu)
  {
    var ready := EnsureObjects(c);
    CameraEffect(ready, sdk);
    ImuEffect(StartCamera(ready, sdk).ctl, sdk);
    StartFacts(c, sdk);
  }

  /** The last start call, that of LiDAR, is lost. */
  lemma LostLidar(c: Ctl, sdk: Sdk)
    requires Sound(c) && c.active == NONE && c.enabled.lidar
    requires Quiet(sdk, c.tick, StartCalls(c) - 1) && sdk(c.tick + StartCalls(c) - 1).Lost?
    ensures var e := Restart(c, sdk);
            && !e.ok && Sound(e.ctl) && e.ctl.fatal == c.fatal && e.ctl.tick == c.tick + StartCalls(c)
            && e.ctl.device.lidar && !e.ctl.active.lidar
  {
    var ready := EnsureObjects(c);
    QuietCapture(ready, sdk);
    var capture := StartCapture(ready, sdk);
    LostRest(capture.ctl, StartCalls(c) - CaptureCalls(c), sdk);
    StartFacts(c, sdk);
  }

  lemma LostRest(c: Ctl, calls: nat, sdk: Sdk)
    requires WantsLidar(c) && c.lidarObject
    requires calls == One(c.enabled.camera || c.enabled.imu) + One(c.roverEnabled && !c.roverActive) + 1
    requires Quiet(sdk, c.tick, calls - 1) && sdk(c.tick + calls - 1).Lost?
    ensures var e := StartRest(c, sdk);
            && !e.ok && e.ctl.tick == c.tick + calls && e.ctl.device.lidar && !e.ctl.active.lidar
  {
    EstablishEffect(c, sdk);
    var reference := Establish(c, sdk);
    RoverEffect(reference.ctl, sdk);
    LidarEffect(StartRover(reference.ctl, sdk).ctl, sdk);
  }

  /** After the pause: the start call of the session that was not configured is lost. */
  lemma LostReconfigure(c: Ctl, command: StreamCommand, selected: Streams, sdk: Sdk)
    requires Sound(c) && c.active == NONE && !c.fatal && !WithinReach(c, command, selected)
    requires var combined := Combined(c.enabled, command, selected);
             sdk == LostAt(LostCall(c, combined))
    ensures var e := Reconfigure(c, command, selected, sdk);
            !e.ctl.fatal && !Stoppable(e.ctl) && e.ctl.tick > LostCall(c, Combined(c.enabled, command, selected))
  {
    var configured := c.(enabled := Combined(c.enabled, command, selected));
    var next := Rebased(configured);
    assert StartCalls(next) == StartCalls(configured);
    if BringsCapture(c.enabled, next.enabled) {
      LostCapture(next, sdk);
    } else {
      LostLidar(next, sdk);
    }
    var failed := Restart(next, sdk);
    StaysAdrift(failed.ctl, c.enabled, sdk);
  }

  predicate BringsCapture(enabled: Streams, combined: Streams) {
    (combined.camera || combined.imu) && !enabled.camera && !enabled.imu
  }

  /** The first start call for a capture session, the last one for LiDAR. */
  function LostCall(c: Ctl, combined: Streams): nat {
    var calls := StartCalls(c.(enabled := combined));
    if BringsCapture(c.enabled, combined) || calls == 0 then c.tick else c.tick + calls - 1
  }

  /**
   * A stream command keeps the device within reach of a later stop, or is fatal, in every environment -
   * also where calls take effect and throw - exactly when it brings in no capture or LiDAR session that
   * was not configured already.
   */
  lemma NeverAdriftExactly(c: Ctl, command: StreamCommand, selected: Streams)
    requires Sound(c) && Stoppable(c) && !c.fatal && Acceptable(c, command, selected)
    ensures (forall sdk: Sdk :: var e := Apply(c, command, selected, sdk); e.ctl.fatal || Stoppable(e.ctl))
            <==> WithinReach(c, command, selected)
  {
    if WithinReach(c, command, selected) {
      forall sdk: Sdk
        ensures var e := Apply(c, command, selected, sdk); e.ctl.fatal || Stoppable(e.ctl)
      {
        ApplyHeld(c, command, selected, sdk);
      }
    } else {
      var sdk := SetAdrift(c, command, selected);
    }
  }

  lemma SetAdrift(c: Ctl, command: StreamCommand, selected: Streams) returns (sdk: Sdk)
    requires Sound(c) && !c.fatal && Acceptable(c, command, selected) && !WithinReach(c, command, selected)
    ensures var e := Apply(c, command, selected, sdk); !e.ctl.fatal && !Stoppable(e.ctl)
  {
    var combined := Combined(c.enabled, command, selected);
    var again := c.(active := NONE, roverActive := false, tick := c.tick + 1 + StopCalls(c));
    sdk := LostAt(LostCall(again, combined));
    QuietPause(c, sdk);
    var paused := Paused(c, sdk);
    assert StartCalls(paused.ctl.(enabled := combined)) == StartCalls(again.(enabled := combined));
    LostReconfigure(paused.ctl, command, selected, sdk);
  }

  // ---- idle operations on a streaming device ----

  /** With streams out of reach and nothing throwing, the stop succeeds and the operation runs on them. */
  lemma RunsOnStreams(c: Ctl, sdk: Sdk)
    requires Sound(c) && !Stoppable(c) && forall n: nat :: n >= c.tick ==> sdk(n).Done?
    ensures !AlwaysSilent(RunIdle(c, sdk).ctl.idleRuns)
  {
    var announced := Tick(c, sdk, PublishState);
    assert Call(c, sdk, PublishState) == Exit(announced, true);
    QuietStop(announced, sdk);
    StopDevice(announced, sdk);
    StopFacts(announced, sdk);
    NotesDevice(Rebased(Stop(announced, sdk).ctl), sdk);
  }

  lemma NotesDevice(c: Ctl, sdk: Sdk)
    requires Sound(c) && c.active == NONE && c.device != NONE
    ensures !AlwaysSilent(OperateAndRestart(c, sdk).ctl.idleRuns)
  {
    OperateFacts(c, sdk);
    var done := Operate(c, sdk);
    StartFacts(done.ctl, sdk);
  }

  /** An idle operation finds a silent device in every environment exactly when a stop can reach all streams. */
  lemma SilentPauseExactly(c: Ctl)
    requires Sound(c) && AlwaysSilent(c.idleRuns)
    ensures (forall sdk: Sdk :: AlwaysSilent(RunIdle(c, sdk).ctl.idleRuns)) <==> Stoppable(c)
  {
    if Stoppable(c) {
      forall sdk: Sdk ensures AlwaysSilent(RunIdle(c, sdk).ctl.idleRuns) {
        RunIdleHeld(c, sdk);
      }
    } else {
      var sdk: Sdk := (n: nat) => Done;
      RunsOnStreams(c, sdk);
      assert !AlwaysSilent(RunIdle(c, sdk).ctl.idleRuns);
    }
  }

  /**
   * Only LiDAR streams; a command adds the camera, whose start takes effect and throws. The rollback
   * succeeds, and the next idle operation runs while the camera streams.
   */
  lemma AdriftExample()
    ensures var run := ExecuteAll(Streaming(LIDAR), [Control(StartStreams, CAMERA), Idle], LostAt(2));
            Stoppable(Streaming(LIDAR)) && !AlwaysSilent(run.idleRuns)
  {
    var c, sdk, commands := Streaming(LIDAR), LostAt(2), [Control(StartStreams, CAMERA), Idle];
    LostCamera();
    var adrift := Apply(c, StartStreams, CAMERA, sdk).ctl;
    ApplyOutcome(c, StartStreams, CAMERA, sdk);
    RunsOnStreams(adrift, sdk);
    assert commands[..1] == [commands[0]] && commands[..1][..0] == [];
    assert ExecuteAll(c, commands[..1], sdk) == adrift;
  }

  lemma LostCamera()
    ensures var e := Apply(Streaming(LIDAR), StartStreams, CAMERA, LostAt(2));
            !e.ctl.fatal && !Stoppable(e.ctl) && e.ctl.tick > 2
  {
    var c, sdk := Streaming(LIDAR), LostAt(2);
    QuietPause(c, sdk);
    var paused := Paused(c, sdk).ctl;
    assert Combined(LIDAR, StartStreams, CAMERA) == Streams(true, false, true);
    assert LostCall(paused, Streams(true, false, true)) == 2;
    LostReconfigure(paused, StartStreams, CAMERA, sdk);
  }

  // ---- whole runs ----

  predicate AllWithinReach(c: Ctl, commands: seq<Command>, sdk: Sdk) {
    commands == [] ||
    (var before, last := commands[..|commands| - 1], commands[|commands| - 1];
     var now := ExecuteAll(c, before, sdk);
     && AllWithinReach(c, before, sdk)
     && (last.Control? && Acceptable(now, last.command, last.selected) ==>
           WithinReach(now, last.command, last.selected)))
  }

  lemma ExecuteHeld(c: Ctl, command: Command, sdk: Sdk)
    requires Sound(c) && Stoppable(c)
    requires command.Control? && Acceptable(c, command.command, command.selected) ==>
               WithinReach(c, command.command, command.selected)
    ensures Held(c, Execute(c, command, sdk))
  {
    match command
    case Control(kind, selected) => ApplyHeld(c, kind, selected, sdk);
    case Idle => RunIdleHeld(c, sdk);
    case Synchronize => SyncTimeHeld(c, sdk);
    case Rover(enable) => RoverDevice(c, enable, sdk);
  }

  /**
   * Over every run of commands within reach, whatever the calls do: until a fatal error, a stop would
   * silence the device, and no idle operation met a streaming one.
   */
  lemma {:induction false} AlwaysHeld(c: Ctl, commands: seq<Command>, sdk: Sdk)
    requires Sound(c) && Stoppable(c) && AlwaysSilent(c.idleRuns) && AllWithinReach(c, commands, sdk)
    ensures var end := ExecuteAll(c, commands, sdk);
            end.fatal || (Stoppable(end) && AlwaysSilent(end.idleRuns))
  {
    if commands != [] {
      var before, last := commands[..|commands| - 1], commands[|commands| - 1];
      var now := ExecuteAll(c, before, sdk);
      AlwaysHeld(c, before, sdk);
      AlwaysSound(c, before, sdk);
      ExecuteSound(now, last, sdk);
      if !now.fatal {
        ExecuteHeld(now, last, sdk);
      }
    }
  }
}
