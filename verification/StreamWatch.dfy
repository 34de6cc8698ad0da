// Which streams stay under the silence check, whatever the SDK calls do.
module StreamWatch {
  import opened StreamControl
  import opened StreamPhases
  import opened StreamSafety

  /** Every active stream would be reported if it went silent. */
  predicate AllWatched(c: Ctl) {
    c.active.Within(c.watched)
  }

  /** The streams that could go silent unnoticed. */
  function Silenced(c: Ctl): Streams {
    c.active.Minus(c.watched)
  }

  // ---- starting arms the check, stopping disarms it ----

  /** One stream: watched if it became active, as before if it was. */
  predicate ArmsOne(was: bool, becomes: bool, watchedBefore: bool, watched: bool) {
    (was ==> becomes) && (watchedBefore ==> watched) && (if was then watched == watchedBefore else becomes ==> watched)
  }

  /** Newly active streams are watched; those active before are as they were. */
  predicate Arms(c: Ctl, e: Exit) {
    && ArmsOne(c.active.camera, e.ctl.active.camera, c.watched.camera, e.ctl.watched.camera)
    && ArmsOne(c.active.imu, e.ctl.active.imu, c.watched.imu, e.ctl.watched.imu)
    && ArmsOne(c.active.lidar, e.ctl.active.lidar, c.watched.lidar, e.ctl.watched.lidar)
  }

  lemma ArmsThen(c: Ctl, first: Exit, second: Exit)
    requires Arms(c, first) && Arms(first.ctl, second)
    ensures Arms(c, second)
  {
  }

  /** A phase that leaves both records alone. */
  lemma Untouched(c: Ctl, e: Exit)
    requires e.ctl.active == c.active && e.ctl.watched == c.watched
    ensures Arms(c, e)
  {
  }

  /** A phase that watches a stream not yet active, and may start it. */
  lemma ArmsStream(c: Ctl, e: Exit, stream: Streams)
    requires Only(c.active, stream) == NONE
    requires e.ctl.watched == c.watched.Plus(stream)
    requires e.ctl.active == c.active || e.ctl.active == c.active.Plus(stream)
    ensures Arms(c, e)
  {
  }

  lemma CameraArms(c: Ctl, sdk: Sdk)
    ensures Arms(c, StartCamera(c, sdk))
  {
    CameraEffect(c, sdk);
    if WantsCamera(c) && StartCamera(c, sdk).ok {
      ArmsStream(c, StartCamera(c, sdk), CAMERA);
    } else {
      Untouched(c, StartCamera(c, sdk));
    }
  }

  lemma ImuArms(c: Ctl, sdk: Sdk)
    ensures Arms(c, StartImu(c, sdk))
  {
    ImuEffect(c, sdk);
    if WantsImu(c) && c.imuObject {
      ArmsStream(c, StartImu(c, sdk), IMU);
    } else {
      Untouched(c, StartImu(c, sdk));
    }
  }

  lemma LidarArms(c: Ctl, sdk: Sdk)
    ensures Arms(c, StartLidar(c, sdk))
  {
    LidarEffect(c, sdk);
    if WantsLidar(c) && c.lidarObject {
      ArmsStream(c, StartLidar(c, sdk), LIDAR);
    } else {
      Untouched(c, StartLidar(c, sdk));
    }
  }

  lemma RoverArms(c: Ctl, sdk: Sdk)
    ensures Arms(c, Establish(c, sdk)) && Arms(c, StartRover(c, sdk))
  {
    EstablishEffect(c, sdk);
    RoverEffect(c, sdk);
    Untouched(c, Establish(c, sdk));
    Untouched(c, StartRover(c, sdk));
  }

  lemma CaptureArms(c: Ctl, sdk: Sdk)
    ensures Arms(c, StartCapture(c, sdk))
  {
    CameraArms(c, sdk);
    var camera := StartCamera(c, sdk);
    if camera.ok {
      ImuArms(camera.ctl, sdk);
      ArmsThen(c, camera, StartImu(camera.ctl, sdk));
    }
  }

  lemma RestArms(c: Ctl, sdk: Sdk)
    ensures Arms(c, StartRest(c, sdk))
  {
    RoverArms(c, sdk);
    var reference := Establish(c, sdk);
    if reference.ok {
      RoverArms(reference.ctl, sdk);
      var rover := StartRover(reference.ctl, sdk);
      ArmsThen(c, reference, rover);
      if rover.ok {
        LidarArms(rover.ctl, sdk);
        ArmsThen(c, rover, StartLidar(rover.ctl, sdk));
      }
    }
  }

  lemma StartArms(c: Ctl, sdk: Sdk)
    ensures Arms(c, Start(c, sdk))
  {
    var ready := EnsureObjects(c);
    CaptureArms(ready, sdk);
    var capture := StartCapture(ready, sdk);
    if capture.ok {
      RestArms(capture.ctl, sdk);
      ArmsThen(ready, capture, StartRest(capture.ctl, sdk));
    }
  }

  /** A restart leaves exactly those streams unwatched that it found active and unwatched. */
  lemma RestartWatch(c: Ctl, sdk: Sdk)
    ensures Silenced(Restart(c, sdk).ctl) == Silenced(c)
    ensures AllWatched(Restart(c, sdk).ctl) <==> AllWatched(c)
  {
    StartArms(c, sdk);
  }

  lemma RecoverWatch(c: Ctl, sdk: Sdk)
    ensures AllWatched(Recover(c, sdk).ctl) <==> AllWatched(c)
  {
    RestartWatch(c, sdk);
  }

  lemma StopDisarms(c: Ctl, sdk: Sdk)
    ensures Stop(c, sdk).ctl.watched == NONE
  {
    StopRoverEffect(Unwatched(c), sdk);
    var rover := StopRover(Unwatched(c), sdk);
    StopLidarEffect(rover.ctl, sdk);
    StopCaptureEffect(StopLidar(rover.ctl, sdk).ctl, sdk);
  }

  lemma StopUnwatches(c: Ctl, sdk: Sdk)
    requires Sound(c)
    ensures Stop(c, sdk).ctl.watched == NONE
    ensures AllWatched(Stop(c, sdk).ctl) <==> Leftover(c.active, StopPointOf(c, sdk)) == NONE
  {
    StopDisarms(c, sdk);
    StopFacts(c, sdk);
  }

  // ---- the commands ----

  lemma OperationWatch(c: Ctl, sdk: Sdk)
    requires Sound(c) && c.active == NONE
    ensures AllWatched(OperateAndRestart(c, sdk).ctl)
  {
    var done := Operate(c, sdk);
    assert AllWatched(done.ctl);
    RestartWatch(done.ctl, sdk);
    RecoverWatch(done.ctl, sdk);
  }

  /** The streams are still watched exactly when the pause got them all stopped, or never began. */
  lemma RunIdleWatch(c: Ctl, sdk: Sdk)
    requires Sound(c) && AllWatched(c)
    ensures var announced := Call(c, sdk, PublishState);
            AllWatched(RunIdle(c, sdk).ctl)
            <==> !announced.ok || Leftover(c.active, StopPointOf(announced.ctl, sdk)) == NONE
  {
    var announced := Call(c, sdk, PublishState);
    if announced.ok {
      StopFacts(announced.ctl, sdk);
      StopUnwatches(announced.ctl, sdk);
      var stopped := Stop(announced.ctl, sdk);
      if stopped.ok {
        OperationWatch(Rebased(stopped.ctl), sdk);
      } else {
        RecoverWatch(stopped.ctl, sdk);
      }
    }
  }

  lemma ReopenWatch(c: Ctl, sdk: Sdk)
    requires c.active == NONE
    ensures AllWatched(ReopenAndStart(c, sdk).ctl)
  {
    var reopened := Reopen(c, sdk);
    assert reopened.ctl.active == NONE;
    StartArms(reopened.ctl, sdk);
  }

  lemma SyncOperationWatch(c: Ctl, sdk: Sdk)
    requires c.active == NONE
    ensures AllWatched(SyncAndReopen(c, sdk).ctl)
  {
    ReopenWatch(Operate(c, sdk).ctl, sdk);
  }

  lemma SyncTimeWatch(c: Ctl, sdk: Sdk)
    requires Sound(c) && AllWatched(c)
    ensures var announced := Call(Tick(c, sdk, ReadTiming), sdk, PublishState);
            AllWatched(SyncTime(c, sdk).ctl)
            <==> !sdk(c.tick).Done? || !announced.ok || Leftover(c.active, StopPointOf(announced.ctl, sdk)) == NONE
  {
    var announced := Call(Tick(c, sdk, ReadTiming), sdk, PublishState);
    if sdk(c.tick).Done? && announced.ok {
      StopFacts(announced.ctl, sdk);
      StopUnwatches(announced.ctl, sdk);
      var stopped := Stop(announced.ctl, sdk);
      if stopped.ok {
        SyncOperationWatch(Rebased(stopped.ctl), sdk);
      } else {
        RecoverWatch(stopped.ctl, sdk);
      }
    }
  }

  lemma ReconfigureWatch(c: Ctl, command: StreamCommand, selected: Streams, sdk: Sdk)
    requires Sound(c) && c.active == NONE
    ensures var failed := Restart(Rebased(c.(enabled := Combined(c.enabled, command, selected))), sdk);
            AllWatched(Reconfigure(c, command, selected, sdk).ctl)
            <==> failed.ok || Leftover(failed.ctl.active, StopPointOf(failed.ctl, sdk)) == NONE
  {
    var combined := Rebased(c.(enabled := Combined(c.enabled, command, selected)));
    RestartFacts(combined, sdk);
    RestartWatch(combined, sdk);
    var failed := Restart(combined, sdk);
    StopUnwatches(failed.ctl, sdk);
    RecoverWatch(Rebased(Stop(failed.ctl, sdk).ctl.(enabled := c.enabled)), sdk);
  }

  // ---- the condition before the call ----

  /** The operation's streams stay watched, or the driver fails. */
  predicate Covered(e: Exit) {
    e.ctl.fatal || AllWatched(e.ctl)
  }

  /**
   * An idle operation keeps every active stream under the silence check, whatever the SDK does, exactly
   * when nothing is streaming: a pause that throws is recovered without arming the check again.
   */
  lemma PauseKeepsWatchExactly(c: Ctl)
    requires Sound(c) && AllWatched(c) && !c.fatal
    ensures (forall sdk: Sdk :: Covered(RunIdle(c, sdk))) <==> c.active == NONE
  {
    if c.active == NONE {
      forall sdk: Sdk ensures Covered(RunIdle(c, sdk)) {
        RunIdleWatch(c, sdk);
      }
    } else {
      var sdk := ThrowAt(c.tick + 1, false);
      var announced := Tick(c, sdk, PublishState);
      assert Call(c, sdk, PublishState) == Exit(announced, true);
      BrokenPause(announced, sdk);
      assert RunIdle(c, sdk) == Recover(Stop(announced, sdk).ctl, sdk);
    }
  }

  /** The stop throws at its first call; the recovery finds the streams active and leaves them so. */
  lemma BrokenPause(c: Ctl, sdk: Sdk)
    requires Sound(c) && !c.fatal && c.active != NONE
    requires sdk(c.tick).Throws? && forall n: nat :: n > c.tick ==> sdk(n).Done?
    ensures var stopped := Stop(c, sdk);
            !stopped.ok && !Covered(Recover(stopped.ctl, sdk))
  {
    StopThrowsAtOnce(c, sdk);
    var left := Stop(c, sdk).ctl;
    RestartSucceeds(left, sdk);
    RecoverFacts(left, sdk);
    RecoverWatch(left, sdk);
  }

  lemma SyncKeepsWatchExactly(c: Ctl)
    requires Sound(c) && AllWatched(c) && !c.fatal
    ensures (forall sdk: Sdk :: Covered(SyncTime(c, sdk))) <==> c.active == NONE
  {
    if c.active == NONE {
      forall sdk: Sdk ensures Covered(SyncTime(c, sdk)) {
        SyncTimeWatch(c, sdk);
      }
    } else {
      var sdk := ThrowAt(c.tick + 2, false);
      var announced := Tick(Tick(c, sdk, ReadTiming), sdk, PublishState);
      assert Call(Tick(c, sdk, ReadTiming), sdk, PublishState) == Exit(announced, true) && sdk(c.tick).Done?;
      BrokenPause(announced, sdk);
      assert SyncTime(c, sdk) == Recover(Stop(announced, sdk).ctl, sdk);
    }
  }

  /**
   * A stream command keeps every active stream under the check, whatever the SDK does, exactly when
   * nothing streams before it and nothing is to stream after it.
   */
  lemma CommandKeepsWatchExactly(c: Ctl, command: StreamCommand, selected: Streams)
    requires Sound(c) && AllWatched(c) && !c.fatal && Acceptable(c, command, selected)
    ensures (forall sdk: Sdk :: Covered(Apply(c, command, selected, sdk)))
            <==> c.active == NONE && Combined(c.enabled, command, selected) == NONE
  {
    if c.active != NONE {
      var sdk := ThrowAt(c.tick + 1, false);
      var announced := Tick(c, sdk, PublishState);
      assert Call(c, sdk, PublishState) == Exit(announced, true);
      StopThrowsAtOnce(announced, sdk);
      assert Apply(c, command, selected, sdk) == Stop(announced, sdk);
      assert !Covered(Apply(c, command, selected, sdk));
    } else if Combined(c.enabled, command, selected) != NONE {
      var sdk := BrokenRollBack(c, command, selected);
    } else {
      forall sdk: Sdk ensures Covered(Apply(c, command, selected, sdk)) {
        SilentCommand(c, command, selected, sdk);
      }
    }
  }

  lemma SilentCommand(c: Ctl, command: StreamCommand, selected: Streams, sdk: Sdk)
    requires Sound(c) && c.active == NONE && Combined(c.enabled, command, selected) == NONE
    ensures AllWatched(Apply(c, command, selected, sdk).ctl)
  {
    PausedFacts(c, sdk);
    StopFacts(Call(c, sdk, PublishState).ctl, sdk);
    var paused := Paused(c, sdk);
    if Acceptable(c, command, selected) && paused.ok {
      var combined := Rebased(paused.ctl.(enabled := Combined(c.enabled, command, selected)));
      RestartFacts(combined, sdk);
      ReconfigureWatch(paused.ctl, command, selected, sdk);
    }
  }

  /** Throws at the status after the restart and at the first stop of the rollback. */
  lemma BrokenRollBack(c: Ctl, command: StreamCommand, selected: Streams) returns (sdk: Sdk)
    requires Sound(c) && !c.fatal && Acceptable(c, command, selected)
    requires Combined(c.enabled, command, selected) != NONE
    ensures !Covered(Apply(c, command, selected, sdk))
  {
    var combined := Combined(c.enabled, command, selected);
    var again := c.(enabled := combined, active := NONE, roverActive := false);
    var status := c.tick + 1 + StopCalls(c) + StartCalls(again);
    sdk := ThrowAt(status, true);
    QuietPause(c, sdk);
    var paused := Paused(c, sdk);
    assert StartCalls(paused.ctl.(enabled := combined)) == StartCalls(again);
    BrokenReconfigure(paused.ctl, command, selected, status, sdk);
  }

  lemma BrokenReconfigure(c: Ctl, command: StreamCommand, selected: Streams, status: nat, sdk: Sdk)
    requires Sound(c) && c.active == NONE && !c.roverActive && !c.fatal
    requires Combined(c.enabled, command, selected) != NONE
    requires status == c.tick + StartCalls(c.(enabled := Combined(c.enabled, command, selected)))
    requires sdk == ThrowAt(status, true)
    ensures !Covered(Reconfigure(c, command, selected, sdk))
  {
    var configured := c.(enabled := Combined(c.enabled, command, selected));
    assert StartCalls(Rebased(configured)) == StartCalls(configured);
    QuietStart(Rebased(configured), sdk);
    BrokenRestart(Rebased(configured), c.enabled, sdk);
  }

  /** The restart ends with its status, and the first stop of the rollback throws. */
  lemma BrokenRestart(c: Ctl, previous: Streams, sdk: Sdk)
    requires Sound(c) && c.active == NONE && !c.fatal && c.enabled != NONE
    requires Start(c, sdk).ok && sdk == ThrowAt(Start(c, sdk).ctl.tick, true)
    ensures var failed := Restart(c, sdk);
            !failed.ok && !Covered(RollBack(failed.ctl, previous, sdk))
  {
    StatusThrows(c, sdk);
    BrokenRecovery(Restart(c, sdk).ctl, previous, sdk);
  }

  lemma BrokenRecovery(c: Ctl, previous: Streams, sdk: Sdk)
    requires Sound(c) && !c.fatal && c.active != NONE
    requires sdk(c.tick).Throws? && forall n: nat :: n > c.tick ==> sdk(n).Done?
    ensures !Covered(RollBack(c, previous, sdk))
  {
    StopThrowsAtOnce(c, sdk);
    var left := Rebased(Stop(c, sdk).ctl.(enabled := previous));
    RestartSucceeds(left, sdk);
    RecoverFacts(left, sdk);
    RecoverWatch(left, sdk);
  }

  // ---- concretely ----

  /** Everything streams and is watched; the pause throws, is recovered, and nothing is watched any more. */
  lemma UnwatchedExample()
    ensures var sdk := ThrowAt(1, false);
            var e := RunIdle(Streaming(ALL), sdk);
            Sound(Streaming(ALL)) && AllWatched(Streaming(ALL))
            && !e.ok && !e.ctl.fatal && e.ctl.active == ALL && e.ctl.watched == NONE
  {
    var sdk := ThrowAt(1, false);
    var c := Streaming(ALL);
    var announced := Tick(c, sdk, PublishState);
    assert Call(c, sdk, PublishState) == Exit(announced, true);
    StopThrowsAtOnce(announced, sdk);
    var left := Stop(announced, sdk).ctl;
    StartFacts(left, sdk);
    StartArms(left, sdk);
    RestartSucceeds(left, sdk);
    RecoverFacts(left, sdk);
  }

  // ---- whole runs ----

  /** No stop that the command makes throws. */
  predicate StopsFinish(c: Ctl, command: Command, sdk: Sdk) {
    match command
    case Control(kind, selected) => StopsHold(c, kind, selected, sdk)
    case Idle => Call(c, sdk, PublishState).ok ==> StopPointOf(Call(c, sdk, PublishState).ctl, sdk).Finished?
    case Synchronize =>
      sdk(c.tick).Done? && Call(Tick(c, sdk, ReadTiming), sdk, PublishState).ok ==>
        StopPointOf(Call(Tick(c, sdk, ReadTiming), sdk, PublishState).ctl, sdk).Finished?
    case Rover(_) => true
  }

  predicate AllStopsFinish(c: Ctl, commands: seq<Command>, sdk: Sdk) {
    commands == [] ||
    (var before, last := commands[..|commands| - 1], commands[|commands| - 1];
     AllStopsFinish(c, before, sdk) && StopsFinish(ExecuteAll(c, before, sdk), last, sdk))
  }

  lemma ApplyWatch(c: Ctl, command: StreamCommand, selected: Streams, sdk: Sdk)
    requires Sound(c) && AllWatched(c) && StopsHold(c, command, selected, sdk)
    ensures AllWatched(Apply(c, command, selected, sdk).ctl)
  {
    PausedFacts(c, sdk);
    var announced := Call(c, sdk, PublishState);
    if Acceptable(c, command, selected) && announced.ok {
      StopFacts(announced.ctl, sdk);
      ReconfigureWatch(Paused(c, sdk).ctl, command, selected, sdk);
    }
  }

  lemma ExecuteWatch(c: Ctl, command: Command, sdk: Sdk)
    requires Sound(c) && AllWatched(c) && StopsFinish(c, command, sdk)
    ensures AllWatched(Execute(c, command, sdk).ctl)
  {
    match command
    case Control(kind, selected) => ApplyWatch(c, kind, selected, sdk);
    case Idle => RunIdleWatch(c, sdk);
    case Synchronize => SyncTimeWatch(c, sdk);
    case Rover(enable) => RoverFacts(c, enable, sdk);
  }

  /** Over every run whose stops do not throw, no active stream ever escapes the silence check. */
  lemma {:induction false} AlwaysWatched(c: Ctl, commands: seq<Command>, sdk: Sdk)
    requires Sound(c) && AllWatched(c) && AllStopsFinish(c, commands, sdk)
    ensures AllWatched(ExecuteAll(c, commands, sdk))
  {
    if commands != [] {
      var before, last := commands[..|commands| - 1], commands[|commands| - 1];
      AlwaysWatched(c, before, sdk);
      AlwaysSound(c, before, sdk);
      ExecuteWatch(ExecuteAll(c, before, sdk), last, sdk);
    }
  }
}
