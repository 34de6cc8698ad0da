// What stream control keeps over every run of commands, whatever the SDK calls do.
module StreamSafety {
  import opened StreamControl
  import opened StreamPhases

  /** A flag is only set for a stream whose object exists. */
  predicate Sound(c: Ctl) {
    (c.active.imu ==> c.imuObject) && (c.active.lidar ==> c.lidarObject)
  }

  predicate Consistent(c: Ctl) {
    c.active == c.enabled
  }

  predicate Safe(c: Ctl) {
    c.fatal || Consistent(c)
  }

  // ---- the building blocks ----

  /** A phase of starting may add some of the given streams, and adds all of them when it succeeds. */
  predicate Adds(c: Ctl, e: Exit, streams: Streams) {
    && Sound(e.ctl) && Kept(c, e.ctl)
    && e.ctl.active.Within(c.active.Plus(streams))
    && (e.ok ==> e.ctl.active == c.active.Plus(streams))
  }

  function Only(s: Streams, mask: Streams): Streams {
    Streams(s.camera && mask.camera, s.imu && mask.imu, s.lidar && mask.lidar)
  }

  /** A phase that adds the streams or leaves the flags alone. */
  lemma AddsStreams(c: Ctl, e: Exit, streams: Streams, added: bool)
    requires Sound(c) && Kept(c, e.ctl) && e.ctl.imuObject == c.imuObject && e.ctl.lidarObject == c.lidarObject
    requires e.ctl.active == if added then c.active.Plus(streams) else c.active
    requires added ==> (streams.imu ==> c.imuObject) && (streams.lidar ==> c.lidarObject)
    requires e.ok ==> added || streams.Within(c.active)
    ensures Adds(c, e, streams)
  {
  }

  lemma StartCameraPhase(c: Ctl, sdk: Sdk)
    requires Sound(c)
    ensures Adds(c, StartCamera(c, sdk), Only(c.enabled, CAMERA))
  {
    CameraEffect(c, sdk);
    AddsStreams(c, StartCamera(c, sdk), Only(c.enabled, CAMERA), WantsCamera(c) && StartCamera(c, sdk).ok);
  }

  lemma StartImuPhase(c: Ctl, sdk: Sdk)
    requires Sound(c)
    ensures Adds(c, StartImu(c, sdk), Only(c.enabled, IMU))
  {
    ImuEffect(c, sdk);
    AddsStreams(c, StartImu(c, sdk), Only(c.enabled, IMU), WantsImu(c) && StartImu(c, sdk).ok);
  }

  lemma EstablishPhase(c: Ctl, sdk: Sdk)
    requires Sound(c)
    ensures Adds(c, Establish(c, sdk), NONE)
  {
    EstablishEffect(c, sdk);
    AddsStreams(c, Establish(c, sdk), NONE, false);
  }

  lemma StartRoverPhase(c: Ctl, sdk: Sdk)
    requires Sound(c)
    ensures Adds(c, StartRover(c, sdk), NONE)
  {
    RoverEffect(c, sdk);
    AddsStreams(c, StartRover(c, sdk), NONE, false);
  }

  lemma StartLidarPhase(c: Ctl, sdk: Sdk)
    requires Sound(c)
    ensures Adds(c, StartLidar(c, sdk), Only(c.enabled, LIDAR))
  {
    LidarEffect(c, sdk);
    AddsStreams(c, StartLidar(c, sdk), Only(c.enabled, LIDAR), WantsLidar(c) && StartLidar(c, sdk).ok);
  }

  lemma CaptureFacts(c: Ctl, sdk: Sdk)
    requires Sound(c)
    ensures Adds(c, StartCapture(c, sdk), Only(c.enabled, CAPTURE))
  {
    StartCameraPhase(c, sdk);
    StartImuPhase(StartCamera(c, sdk).ctl, sdk);
  }

  lemma RestFacts(c: Ctl, sdk: Sdk)
    requires Sound(c)
    ensures Adds(c, StartRest(c, sdk), Only(c.enabled, LIDAR))
  {
    EstablishPhase(c, sdk);
    var reference := Establish(c, sdk);
    StartRoverPhase(reference.ctl, sdk);
    StartLidarPhase(StartRover(reference.ctl, sdk).ctl, sdk);
  }

  lemma StartFacts(c: Ctl, sdk: Sdk)
    requires Sound(c)
    ensures Adds(c, Start(c, sdk), c.enabled)
  {
    var ready := EnsureObjects(c);
    CaptureFacts(ready, sdk);
    RestFacts(StartCapture(ready, sdk).ctl, sdk);
  }

  /** Where stopConfiguredStreams ends. */
  datatype StopPoint = AtRover | AtLidar | AtCapture | Finished

  function StopPointOf(c: Ctl, sdk: Sdk): StopPoint {
    var rover := StopRover(Unwatched(c), sdk);
    if !rover.ok then AtRover else
    var lidar := StopLidar(rover.ctl, sdk);
    if !lidar.ok then AtLidar else
    if !StopCapture(lidar.ctl, sdk).ok then AtCapture else Finished
  }

  /** A throw leaves everything running, except that LiDAR is already off when the capture stop throws. */
  function Leftover(active: Streams, point: StopPoint): Streams {
    match point
    case Finished => NONE
    case AtCapture => active.Minus(LIDAR)
    case _ => active
  }

  lemma StopRoverPhase(c: Ctl, sdk: Sdk)
    requires Sound(c)
    ensures var e := StopRover(c, sdk); Sound(e.ctl) && Kept(c, e.ctl) && e.ctl.active == c.active
  {
    StopRoverEffect(c, sdk);
  }

  lemma StopLidarPhase(c: Ctl, sdk: Sdk)
    requires Sound(c)
    ensures var e := StopLidar(c, sdk);
            Sound(e.ctl) && Kept(c, e.ctl) && e.ctl.active == if e.ok then c.active.Minus(LIDAR) else c.active
  {
    StopLidarEffect(c, sdk);
  }

  lemma StopCapturePhase(c: Ctl, sdk: Sdk)
    requires Sound(c)
    ensures var e := StopCapture(c, sdk);
            Sound(e.ctl) && Kept(c, e.ctl) && e.ctl.active == if e.ok then c.active.Minus(CAPTURE) else c.active
  {
    StopCaptureEffect(c, sdk);
  }

  lemma StopFacts(c: Ctl, sdk: Sdk)
    requires Sound(c)
    ensures var e := Stop(c, sdk);
            && Sound(e.ctl) && Kept(c, e.ctl)
            && (e.ok <==> StopPointOf(c, sdk).Finished?)
            && e.ctl.active == Leftover(c.active, StopPointOf(c, sdk))
            && e.ctl.active.Within(c.active)
  {
    StopRoverPhase(Unwatched(c), sdk);
    var rover := StopRover(Unwatched(c), sdk);
    StopLidarPhase(rover.ctl, sdk);
    StopCapturePhase(StopLidar(rover.ctl, sdk).ctl, sdk);
  }

  lemma RestartFacts(c: Ctl, sdk: Sdk)
    requires Sound(c)
    ensures Adds(c, Restart(c, sdk), c.enabled)
  {
    StartFacts(c, sdk);
  }

  lemma RecoverFacts(c: Ctl, sdk: Sdk)
    requires Sound(c)
    ensures var e := Recover(c, sdk);
            && !e.ok && Sound(e.ctl) && e.ctl.enabled == c.enabled
            && (c.fatal ==> e.ctl.fatal)
            && (Safe(e.ctl) <==> e.ctl.fatal || c.active.Within(c.enabled))
            && (e.ctl.fatal <==> c.fatal || !Restart(c, sdk).ok)
  {
    RestartFacts(c, sdk);
  }

  lemma OperateFacts(c: Ctl, sdk: Sdk)
    requires Sound(c) && c.active == NONE
    ensures var e := Operate(c, sdk);
            && Sound(e.ctl) && e.ctl.active == NONE && e.ctl.enabled == c.enabled && e.ctl.fatal == c.fatal
            && e.ctl.idleRuns == After(c.idleRuns, c.device)
  {
  }

  /** Where the SDK throws in the middle of a pause, recovery restores consistency or is fatal. */
  lemma IdleOperationFacts(c: Ctl, sdk: Sdk)
    requires Sound(c) && c.active == NONE
    ensures var e := OperateAndRestart(c, sdk);
            Sound(e.ctl) && Safe(e.ctl) && e.ctl.enabled == c.enabled && (c.fatal ==> e.ctl.fatal)
            && (e.ok ==> Consistent(e.ctl))
  {
    OperateFacts(c, sdk);
    var done := Operate(c, sdk);
    RestartFacts(done.ctl, sdk);
    RecoverFacts(done.ctl, sdk);
  }

  /** runIdleOperation: the configuration is untouched, and on success so are the streams. */
  lemma RunIdleFacts(c: Ctl, sdk: Sdk)
    requires Sound(c)
    ensures var e := RunIdle(c, sdk);
            && Sound(e.ctl) && e.ctl.enabled == c.enabled && (c.fatal ==> e.ctl.fatal)
            && (Safe(c) ==> Safe(e.ctl))
            && (e.ok ==> Consistent(e.ctl))
  {
    var announced := Call(c, sdk, PublishState);
    assert Sound(announced.ctl);
    if announced.ok {
      StopFacts(announced.ctl, sdk);
      var stopped := Stop(announced.ctl, sdk);
      if stopped.ok {
        IdleOperationFacts(Rebased(stopped.ctl), sdk);
      } else {
        RecoverFacts(stopped.ctl, sdk);
      }
    }
  }

  lemma ReopenFacts(c: Ctl, sdk: Sdk)
    requires Sound(c) && c.active == NONE
    ensures var e := ReopenAndStart(c, sdk);
            Sound(e.ctl) && Kept(c, e.ctl) && (e.ok ==> Consistent(e.ctl))
  {
    var reopened := Reopen(c, sdk);
    assert Sound(reopened.ctl) && Kept(c, reopened.ctl) && reopened.ctl.active == NONE;
    StartFacts(reopened.ctl, sdk);
  }

  /** A reopening that succeeded is announced; one that failed is fatal. */
  lemma ReopenedFacts(c: Ctl, reopened: Exit, sdk: Sdk)
    requires Sound(reopened.ctl) && Kept(c, reopened.ctl) && (reopened.ok ==> Consistent(reopened.ctl))
    ensures var e := Settled(if reopened.ok then Call(reopened.ctl, sdk, PublishState) else reopened);
            Sound(e.ctl) && Safe(e.ctl) && e.ctl.enabled == c.enabled && (c.fatal ==> e.ctl.fatal) && !e.ok
    ensures var started := Final(reopened);
            var e := if started.ok then Call(started.ctl, sdk, PublishState) else started;
            Sound(e.ctl) && Safe(e.ctl) && e.ctl.enabled == c.enabled && (c.fatal ==> e.ctl.fatal)
            && (e.ok ==> Consistent(e.ctl))
  {
  }

  lemma SyncAndReopenFacts(c: Ctl, sdk: Sdk)
    requires Sound(c) && c.active == NONE
    ensures var e := SyncAndReopen(c, sdk);
            Sound(e.ctl) && Safe(e.ctl) && e.ctl.enabled == c.enabled && (c.fatal ==> e.ctl.fatal)
            && (e.ok ==> Consistent(e.ctl))
  {
    OperateFacts(c, sdk);
    var done := Operate(c, sdk);
    ReopenFacts(done.ctl, sdk);
    ReopenedFacts(done.ctl, ReopenAndStart(done.ctl, sdk), sdk);
  }

  /** synchronizeSystemTime keeps the same promises. */
  lemma SyncTimeFacts(c: Ctl, sdk: Sdk)
    requires Sound(c)
    ensures var e := SyncTime(c, sdk);
            && Sound(e.ctl) && e.ctl.enabled == c.enabled && (c.fatal ==> e.ctl.fatal)
            && (Safe(c) ==> Safe(e.ctl))
            && (e.ok ==> Consistent(e.ctl))
  {
    var asked := Tick(c, sdk, ReadTiming);
    assert Sound(asked);
    var announced := Call(asked, sdk, PublishState);
    assert Sound(announced.ctl);
    if sdk(c.tick).Done? && announced.ok {
      StopFacts(announced.ctl, sdk);
      var stopped := Stop(announced.ctl, sdk);
      if stopped.ok {
        SyncAndReopenFacts(Rebased(stopped.ctl), sdk);
      } else {
        RecoverFacts(stopped.ctl, sdk);
      }
    }
  }

  /** run() begins safe: a first start that does not throw activates exactly the configured streams. */
  lemma FirstStart(enabled: Streams, roverEnabled: bool, sdk: Sdk)
    ensures var c := Initial(enabled, roverEnabled);
            var e := Start(c, sdk);
            Sound(c) && Sound(e.ctl) && !e.ctl.fatal && (e.ok ==> Consistent(e.ctl))
  {
    StartFacts(Initial(enabled, roverEnabled), sdk);
  }

  // ---- stream commands ----

  /** The first stop throws at the shared capture session although LiDAR was just stopped. */
  predicate HalfStopped(c: Ctl, sdk: Sdk) {
    var announced := Call(c, sdk, PublishState);
    announced.ok && c.active.lidar && StopPointOf(announced.ctl, sdk).AtCapture?
  }

  /**
   * The new configuration fails to start, stopping it throws too, what that leaves running is not
   * all in the old configuration, and starting the old one on top of it succeeds.
   */
  predicate Stranded(c: Ctl, command: StreamCommand, selected: Streams, sdk: Sdk) {
    var paused := Paused(c, sdk);
    var failed := Restart(Rebased(paused.ctl.(enabled := Combined(c.enabled, command, selected))), sdk);
    var rollback := Stop(failed.ctl, sdk);
    && paused.ok && !failed.ok
    && !Leftover(failed.ctl.active, StopPointOf(failed.ctl, sdk)).Within(c.enabled)
    && Restart(Rebased(rollback.ctl.(enabled := c.enabled)), sdk).ok
  }

  lemma PausedFacts(c: Ctl, sdk: Sdk)
    requires Sound(c)
    ensures var e := Paused(c, sdk);
            && Sound(e.ctl) && Kept(c, e.ctl)
            && (e.ok ==> e.ctl.active == NONE)
            && (!e.ok ==> (e.ctl.active == c.active <==> !HalfStopped(c, sdk)))
  {
    var announced := Call(c, sdk, PublishState);
    assert Sound(announced.ctl);
    StopFacts(announced.ctl, sdk);
  }

  lemma RollBackFacts(c: Ctl, previous: Streams, sdk: Sdk)
    requires Sound(c)
    ensures var e := RollBack(c, previous, sdk);
            var restored := Rebased(Stop(c, sdk).ctl.(enabled := previous));
            && !e.ok && Sound(e.ctl) && e.ctl.enabled == previous
            && (c.fatal ==> e.ctl.fatal)
            && (e.ctl.fatal <==> c.fatal || !Restart(restored, sdk).ok)
            && (Safe(e.ctl) <==> e.ctl.fatal || Leftover(c.active, StopPointOf(c, sdk)).Within(previous))
  {
    StopFacts(c, sdk);
    RecoverFacts(Rebased(Stop(c, sdk).ctl.(enabled := previous)), sdk);
  }

  /** applyStreamCommand, whatever throws: the flags stay true and a failure restores the configuration. */
  lemma ApplyOutcome(c: Ctl, command: StreamCommand, selected: Streams, sdk: Sdk)
    requires Sound(c)
    ensures var e := Apply(c, command, selected, sdk);
            && Sound(e.ctl)
            && (c.fatal ==> e.ctl.fatal)
            && (e.ok ==> e.ctl.enabled == e.ctl.active == Combined(c.enabled, command, selected))
            && (e.ok ==> e.ctl.fatal == c.fatal)
            && (!e.ok ==> e.ctl.enabled == c.enabled)
  {
    PausedFacts(c, sdk);
    var paused := Paused(c, sdk);
    if Acceptable(c, command, selected) && paused.ok {
      var combined := Rebased(paused.ctl.(enabled := Combined(c.enabled, command, selected)));
      RestartFacts(combined, sdk);
      RollBackFacts(Restart(combined, sdk).ctl, c.enabled, sdk);
    }
  }

  /** Exactly when a command leaves the streams as configured (or the driver failing). */
  lemma ApplySafeExactly(c: Ctl, command: StreamCommand, selected: Streams, sdk: Sdk)
    requires Sound(c) && Consistent(c) && !c.fatal && Acceptable(c, command, selected)
    ensures Safe(Apply(c, command, selected, sdk).ctl)
            <==> !HalfStopped(c, sdk) && !Stranded(c, command, selected, sdk)
  {
    PausedFacts(c, sdk);
    var paused := Paused(c, sdk);
    if paused.ok {
      StopFacts(Call(c, sdk, PublishState).ctl, sdk);
      ReconfigureSafeExactly(paused.ctl, command, selected, sdk);
    }
  }

  // ---- the condition before the call ----

  /** What a caller can see: LiDAR stops apart from a running capture session. */
  predicate StopsInParts(c: Ctl) {
    c.active.lidar && (c.active.camera || c.active.imu)
  }

  /**
   * A command is safe whatever the SDK does exactly when LiDAR and a capture stream are not both
   * running and the command enables nothing new.
   */
  lemma SafeWhateverThrows(c: Ctl, command: StreamCommand, selected: Streams)
    requires Sound(c) && Consistent(c) && !c.fatal && Acceptable(c, command, selected)
    ensures (forall sdk: Sdk :: Safe(Apply(c, command, selected, sdk).ctl))
            <==> !StopsInParts(c) && Combined(c.enabled, command, selected).Within(c.enabled)
  {
    if !StopsInParts(c) && Combined(c.enabled, command, selected).Within(c.enabled) {
      forall sdk: Sdk ensures Safe(Apply(c, command, selected, sdk).ctl) {
        SafeInThisEnvironment(c, command, selected, sdk);
      }
    } else if StopsInParts(c) {
      var sdk := HalfStop(c, command, selected);
    } else {
      var sdk := Strand(c, command, selected);
    }
  }

  lemma SafeInThisEnvironment(c: Ctl, command: StreamCommand, selected: Streams, sdk: Sdk)
    requires Sound(c) && Consistent(c) && !c.fatal && Acceptable(c, command, selected)
    requires !StopsInParts(c) && Combined(c.enabled, command, selected).Within(c.enabled)
    ensures Safe(Apply(c, command, selected, sdk).ctl)
  {
    ApplySafeExactly(c, command, selected, sdk);
    PausedFacts(c, sdk);
    var paused := Paused(c, sdk);
    var combined := Rebased(paused.ctl.(enabled := Combined(c.enabled, command, selected)));
    if paused.ok {
      RestartFacts(combined, sdk);
      StopFacts(Restart(combined, sdk).ctl, sdk);
    } else if HalfStopped(c, sdk) {
      NoHalfStop(Call(c, sdk, PublishState).ctl, sdk);
    }
  }

  lemma NoHalfStop(c: Ctl, sdk: Sdk)
    requires Sound(c) && !StopsInParts(c) && c.active.lidar
    ensures !StopPointOf(c, sdk).AtCapture?
  {
  }

  /** The environment that throws at the n-th call and, if twice, at the one after it. */
  function ThrowAt(n: nat, twice: bool): Sdk {
    (k: nat) => if k == n || (twice && k == n + 1) then Throws else Done
  }

  /** Throws at the capture stop, right after the LiDAR stop. */
  lemma HalfStop(c: Ctl, command: StreamCommand, selected: Streams) returns (sdk: Sdk)
    requires Sound(c) && Consistent(c) && !c.fatal && Acceptable(c, command, selected) && StopsInParts(c)
    ensures !Safe(Apply(c, command, selected, sdk).ctl)
  {
    sdk := ThrowAt(c.tick + (if c.roverActive then 3 else 2), false);
    var announced := Call(c, sdk, PublishState);
    assert announced.ok && announced.ctl.tick == c.tick + 1;
    var rover := StopRover(Unwatched(announced.ctl), sdk);
    assert rover.ok;
    var lidar := StopLidar(rover.ctl, sdk);
    assert lidar.ok && !StopCapture(lidar.ctl, sdk).ok;
    assert HalfStopped(c, sdk);
    ApplySafeExactly(c, command, selected, sdk);
  }

  predicate Quiet(sdk: Sdk, from: nat, calls: nat) {
    forall n: nat :: from <= n < from + calls ==> sdk(n).Done?
  }

  /** A phase without a throw: so many calls later, with the same configuration and objects. */
  predicate Moved(c: Ctl, e: Exit, calls: nat) {
    && e.ok && e.ctl.tick == c.tick + calls && Kept(c, e.ctl)
    && e.ctl.imuObject == c.imuObject && e.ctl.lidarObject == c.lidarObject
  }

  /** The calls of a stop in which nothing throws. */
  function StopCalls(c: Ctl): nat {
    One(c.roverActive) + One(c.active.lidar) + One(c.active.camera || c.active.imu)
  }

  lemma QuietStop(c: Ctl, sdk: Sdk)
    requires Sound(c) && Quiet(sdk, c.tick, StopCalls(c))
    ensures Moved(c, Stop(c, sdk), StopCalls(c)) && !Stop(c, sdk).ctl.roverActive
  {
    StopRoverEffect(Unwatched(c), sdk);
    var rover := StopRover(Unwatched(c), sdk);
    StopLidarEffect(rover.ctl, sdk);
    StopCaptureEffect(StopLidar(rover.ctl, sdk).ctl, sdk);
  }

  function CaptureCalls(c: Ctl): nat {
    One(WantsCamera(c)) + One(WantsImu(c))
  }

  /** The calls of a start in which nothing throws. */
  function StartCalls(c: Ctl): nat {
    CaptureCalls(c) + One(c.enabled.camera || c.enabled.imu)
    + One(c.roverEnabled && !c.roverActive) + One(WantsLidar(c))
  }

  lemma QuietCapture(c: Ctl, sdk: Sdk)
    requires (c.enabled.imu ==> c.imuObject) && Quiet(sdk, c.tick, CaptureCalls(c))
    ensures var e := StartCapture(c, sdk);
            Moved(c, e, CaptureCalls(c)) && e.ctl.roverActive == c.roverActive && e.ctl.active.lidar == c.active.lidar
  {
    CameraEffect(c, sdk);
    ImuEffect(StartCamera(c, sdk).ctl, sdk);
  }

  lemma QuietRest(c: Ctl, sdk: Sdk, calls: nat)
    requires c.enabled.lidar ==> c.lidarObject
    requires calls == One(c.enabled.camera || c.enabled.imu) + One(c.roverEnabled && !c.roverActive)
                      + One(WantsLidar(c))
    requires Quiet(sdk, c.tick, calls)
    ensures Moved(c, StartRest(c, sdk), calls)
  {
    EstablishEffect(c, sdk);
    var reference := Establish(c, sdk);
    RoverEffect(reference.ctl, sdk);
    LidarEffect(StartRover(reference.ctl, sdk).ctl, sdk);
  }

  lemma QuietStart(c: Ctl, sdk: Sdk)
    requires Quiet(sdk, c.tick, StartCalls(c))
    ensures Start(c, sdk).ok && Start(c, sdk).ctl.tick == c.tick + StartCalls(c)
  {
    var ready := EnsureObjects(c);
    QuietCapture(ready, sdk);
    QuietRest(StartCapture(ready, sdk).ctl, sdk, StartCalls(c) - CaptureCalls(c));
  }

  /** The first call of a stop throws. */
  lemma StopThrowsAtOnce(c: Ctl, sdk: Sdk)
    requires Sound(c) && c.active != NONE && sdk(c.tick).Throws?
    ensures !Stop(c, sdk).ok
    ensures Stop(c, sdk).ctl == Unwatched(c).(tick := c.tick + 1, trace := Stop(c, sdk).ctl.trace)
  {
  }

  /** A pause in which nothing throws. */
  lemma QuietPause(c: Ctl, sdk: Sdk)
    requires Sound(c) && Quiet(sdk, c.tick, 1 + StopCalls(c))
    ensures var e := Paused(c, sdk);
            && e.ok && e.ctl.tick == c.tick + 1 + StopCalls(c) && Kept(c, e.ctl) && Sound(e.ctl)
            && e.ctl.active == NONE && !e.ctl.roverActive
  {
    var announced := Tick(c, sdk, PublishState);
    assert Call(c, sdk, PublishState) == Exit(announced, true);
    QuietStop(announced, sdk);
    StopFacts(announced, sdk);
  }

  /** Throws at the status after the restart and at the first stop of the rollback. */
  lemma Strand(c: Ctl, command: StreamCommand, selected: Streams) returns (sdk: Sdk)
    requires Sound(c) && Consistent(c) && !c.fatal && Acceptable(c, command, selected)
    requires !Combined(c.enabled, command, selected).Within(c.enabled)
    ensures !Safe(Apply(c, command, selected, sdk).ctl)
  {
    var combined := Combined(c.enabled, command, selected);
    var again := c.(enabled := combined, active := NONE, roverActive := false);
    var status := c.tick + 1 + StopCalls(c) + StartCalls(again);
    sdk := ThrowAt(status, true);
    QuietPause(c, sdk);
    var paused := Paused(c, sdk);
    assert StartCalls(paused.ctl.(enabled := combined)) == StartCalls(again);
    Stranding(paused.ctl, command, selected, status, sdk);
  }

  /** The restart ends at its status with everything started, and the rollback finds it that way. */
  lemma Stranding(c: Ctl, command: StreamCommand, selected: Streams, status: nat, sdk: Sdk)
    requires Sound(c) && c.active == NONE && !c.roverActive && !c.fatal
    requires !Combined(c.enabled, command, selected).Within(c.enabled)
    requires status == c.tick + StartCalls(c.(enabled := Combined(c.enabled, command, selected)))
    requires sdk == ThrowAt(status, true)
    ensures !Safe(Reconfigure(c, command, selected, sdk).ctl)
  {
    var configured := c.(enabled := Combined(c.enabled, command, selected));
    assert StartCalls(Rebased(configured)) == StartCalls(configured);
    QuietStart(Rebased(configured), sdk);
    StrandedRestart(Rebased(configured), c.enabled, sdk);
  }

  lemma StrandedRestart(c: Ctl, previous: Streams, sdk: Sdk)
    requires Sound(c) && c.active == NONE && !c.fatal && !c.enabled.Within(previous)
    requires Start(c, sdk).ok && sdk == ThrowAt(Start(c, sdk).ctl.tick, true)
    ensures var failed := Restart(c, sdk);
            !failed.ok && !Safe(RollBack(failed.ctl, previous, sdk).ctl)
  {
    StatusThrows(c, sdk);
    StrandedRollBack(Restart(c, sdk).ctl, previous, sdk);
  }

  lemma StrandedRollBack(c: Ctl, previous: Streams, sdk: Sdk)
    requires Sound(c) && !c.fatal && !c.active.Within(previous)
    requires sdk(c.tick).Throws? && forall n: nat :: n > c.tick ==> sdk(n).Done?
    ensures !Safe(RollBack(c, previous, sdk).ctl)
  {
    StopThrowsAtOnce(c, sdk);
    RestartSucceeds(Rebased(Stop(c, sdk).ctl.(enabled := previous)), sdk);
    RollBackFacts(c, previous, sdk);
  }

  lemma StatusThrows(c: Ctl, sdk: Sdk)
    requires Sound(c) && c.active == NONE && Start(c, sdk).ok && sdk(Start(c, sdk).ctl.tick).Throws?
    ensures var e := Restart(c, sdk);
            && !e.ok && Sound(e.ctl) && e.ctl.active == c.enabled && e.ctl.tick == Start(c, sdk).ctl.tick + 1
            && e.ctl.fatal == c.fatal
  {
    StartFacts(c, sdk);
  }

  lemma RestartSucceeds(c: Ctl, sdk: Sdk)
    requires forall n: nat :: n >= c.tick ==> sdk(n).Done?
    ensures Restart(c, sdk).ok
  {
    QuietStart(c, sdk);
  }

  lemma ReconfigureSafeExactly(c: Ctl, command: StreamCommand, selected: Streams, sdk: Sdk)
    requires Sound(c) && c.active == NONE && !c.fatal
    ensures var combined := Rebased(c.(enabled := Combined(c.enabled, command, selected)));
            var failed := Restart(combined, sdk);
            Safe(Reconfigure(c, command, selected, sdk).ctl)
            <==> (failed.ok || Leftover(failed.ctl.active, StopPointOf(failed.ctl, sdk)).Within(c.enabled)
                  || !Restart(Rebased(Stop(failed.ctl, sdk).ctl.(enabled := c.enabled)), sdk).ok)
  {
    var combined := Rebased(c.(enabled := Combined(c.enabled, command, selected)));
    RestartFacts(combined, sdk);
    RollBackFacts(Restart(combined, sdk).ctl, c.enabled, sdk);
  }

  /** Neither stop call that the command makes throws. */
  predicate StopsHold(c: Ctl, command: StreamCommand, selected: Streams, sdk: Sdk) {
    var announced := Call(c, sdk, PublishState);
    var paused := Paused(c, sdk);
    var failed := Restart(Rebased(paused.ctl.(enabled := Combined(c.enabled, command, selected))), sdk);
    Acceptable(c, command, selected) && announced.ok ==>
      && StopPointOf(announced.ctl, sdk).Finished?
      && (!failed.ok ==> StopPointOf(failed.ctl, sdk).Finished?)
  }

  /** The stops hold, or the command is one that is safe whatever throws. */
  predicate Guarded(c: Ctl, command: StreamCommand, selected: Streams, sdk: Sdk) {
    || StopsHold(c, command, selected, sdk)
    || (!StopsInParts(c) && Combined(c.enabled, command, selected).Within(c.enabled))
  }

  lemma ApplySafe(c: Ctl, command: StreamCommand, selected: Streams, sdk: Sdk)
    requires Sound(c) && Safe(c) && Guarded(c, command, selected, sdk)
    ensures Safe(Apply(c, command, selected, sdk).ctl)
  {
    ApplyOutcome(c, command, selected, sdk);
    if !c.fatal && Acceptable(c, command, selected) {
      if StopsHold(c, command, selected, sdk) {
        ApplySafeExactly(c, command, selected, sdk);
      } else {
        SafeInThisEnvironment(c, command, selected, sdk);
      }
    }
  }

  // ---- the two failing families, concretely ----

  const ALL := Streams(true, true, true)

  /** Exactly these streams are configured, active and watched. */
  function Streaming(s: Streams): Ctl {
    Ctl(s, false, s, false, true, true, false, s, 0, NoCalls, s, Nothing, Nothing, Nothing)
  }

  /** Everything is streaming; the shared stop throws after the LiDAR stop: LiDAR is left off. */
  lemma HalfStoppedExample()
    ensures var sdk := (n: nat) => if n == 2 then Throws else Done;
            var c := Streaming(ALL);
            var e := Apply(c, StopStreams, Streams(true, false, false), sdk);
            Sound(c) && Safe(c)
            && !e.ok && !e.ctl.fatal && e.ctl.enabled == ALL
            && e.ctl.active == e.ctl.device == Streams(true, true, false)
  {
    var sdk := (n: nat) => if n == 2 then Throws else Done;
    var c := Tick(Streaming(ALL), sdk, PublishState);
    assert Call(Streaming(ALL), sdk, PublishState) == Exit(c, true);
    var lidar := StopLidar(Unwatched(c), sdk);
    assert StopRover(Unwatched(c), sdk) == Exit(Unwatched(c), true);
    assert lidar.ok && lidar.ctl.tick == 2
           && lidar.ctl.active == lidar.ctl.device == Streams(true, true, false);
    assert Stop(c, sdk) == Exit(Tick(lidar.ctl, sdk, ImuOff), false);
  }

  /** Camera starts, the IMU does not, and the camera cannot be stopped again: it keeps streaming. */
  lemma StrandedExample()
    ensures var sdk := (n: nat) => if n == 3 || n == 4 then Throws else Done;
            var c := Streaming(LIDAR);
            var e := Apply(c, StartStreams, Streams(true, true, false), sdk);
            Sound(c) && Safe(c)
            && !e.ok && !e.ctl.fatal && e.ctl.enabled == LIDAR
            && e.ctl.active == e.ctl.device == Streams(true, false, true)
  {
    var sdk := (n: nat) => if n == 3 || n == 4 then Throws else Done;
    var c := Streaming(LIDAR);
    var selected := Streams(true, true, false);
    var paused := Paused(c, sdk);
    assert paused.ok && paused.ctl.active == NONE && paused.ctl.tick == 2;
    var combined := Rebased(paused.ctl.(enabled := Combined(LIDAR, StartStreams, selected)));
    var failed := Restart(combined, sdk);
    assert !failed.ok && failed.ctl.active == Streams(true, false, false) && failed.ctl.tick == 4;
    var stopped := Stop(failed.ctl, sdk);
    assert !stopped.ok && stopped.ctl.active == Streams(true, false, false) && stopped.ctl.tick == 5;
    var restored := Rebased(stopped.ctl.(enabled := LIDAR));
    LidarComesBack(restored, sdk);
    assert !restored.fatal;
    assert Apply(c, StartStreams, selected, sdk) == Recover(restored, sdk);
  }

  /** The camera streams, only LiDAR is configured, and nothing throws any more. */
  lemma LidarComesBack(c: Ctl, sdk: Sdk)
    requires c.enabled == LIDAR && !c.roverEnabled && c.lidarObject
    requires c.active == c.device == Streams(true, false, false)
    requires forall n: nat :: n >= c.tick ==> sdk(n).Done?
    ensures var e := Recover(c, sdk);
            && !e.ok && e.ctl.fatal == c.fatal && e.ctl.enabled == LIDAR
            && e.ctl.active == e.ctl.device == Streams(true, false, true)
  {
    var ready := EnsureObjects(c);
    assert StartCapture(ready, sdk) == Exit(ready, true);
    LidarEffect(ready, sdk);
    assert Start(c, sdk) == StartLidar(ready, sdk);
  }

  // ---- whole runs ----

  datatype Command =
    | Control(command: StreamCommand, selected: Streams)
    | Idle
    | Synchronize
    | Rover(enable: bool)

  function Execute(c: Ctl, command: Command, sdk: Sdk): Exit {
    match command
    case Control(kind, selected) => Apply(c, kind, selected, sdk)
    case Idle => RunIdle(c, sdk)
    case Synchronize => SyncTime(c, sdk)
    case Rover(enable) => SetRover(c, enable, sdk)
  }

  function ExecuteAll(c: Ctl, commands: seq<Command>, sdk: Sdk): Ctl {
    if commands == [] then c
    else Execute(ExecuteAll(c, commands[..|commands| - 1], sdk), commands[|commands| - 1], sdk).ctl
  }

  /** Every stream command of the run is guarded where it is given. */
  predicate AllGuarded(c: Ctl, commands: seq<Command>, sdk: Sdk) {
    commands == [] ||
    (var before, last := commands[..|commands| - 1], commands[|commands| - 1];
     && AllGuarded(c, before, sdk)
     && (last.Control? ==> Guarded(ExecuteAll(c, before, sdk), last.command, last.selected, sdk)))
  }

  /** Over every run the flags are sound, and a fatal error stays. */
  lemma {:induction false} AlwaysSound(c: Ctl, commands: seq<Command>, sdk: Sdk)
    requires Sound(c)
    ensures Sound(ExecuteAll(c, commands, sdk))
    ensures c.fatal ==> ExecuteAll(c, commands, sdk).fatal
  {
    if commands != [] {
      var before, last := commands[..|commands| - 1], commands[|commands| - 1];
      AlwaysSound(c, before, sdk);
      ExecuteSound(ExecuteAll(c, before, sdk), last, sdk);
    }
  }

  lemma ExecuteSound(c: Ctl, command: Command, sdk: Sdk)
    requires Sound(c)
    ensures Sound(Execute(c, command, sdk).ctl)
    ensures c.fatal ==> Execute(c, command, sdk).ctl.fatal
  {
    match command
    case Control(kind, selected) => ApplyOutcome(c, kind, selected, sdk);
    case Idle => RunIdleFacts(c, sdk);
    case Synchronize => SyncTimeFacts(c, sdk);
    case Rover(enable) => RoverFacts(c, enable, sdk);
  }

  lemma RoverFacts(c: Ctl, enable: bool, sdk: Sdk)
    requires Sound(c)
    ensures var e := SetRover(c, enable, sdk);
            && Sound(e.ctl) && e.ctl.active == c.active && e.ctl.enabled == c.enabled
            && e.ctl.fatal == c.fatal
  {
  }

  /** Over every run of guarded commands: fatal, or exactly the configured streams are active. */
  lemma {:induction false} AlwaysSafe(c: Ctl, commands: seq<Command>, sdk: Sdk)
    requires Sound(c) && Safe(c) && AllGuarded(c, commands, sdk)
    ensures Safe(ExecuteAll(c, commands, sdk))
  {
    if commands != [] {
      var before, last := commands[..|commands| - 1], commands[|commands| - 1];
      AlwaysSafe(c, before, sdk);
      AlwaysSound(c, before, sdk);
      ExecuteSafe(ExecuteAll(c, before, sdk), last, sdk);
    }
  }

  lemma ExecuteSafe(c: Ctl, command: Command, sdk: Sdk)
    requires Sound(c) && Safe(c)
    requires command.Control? ==> Guarded(c, command.command, command.selected, sdk)
    ensures Safe(Execute(c, command, sdk).ctl)
  {
    match command
    case Control(kind, selected) => ApplySafe(c, kind, selected, sdk);
    case Idle => RunIdleFacts(c, sdk);
    case Synchronize => SyncTimeFacts(c, sdk);
    case Rover(enable) => RoverFacts(c, enable, sdk);
  }
}
