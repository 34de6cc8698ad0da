// What each phase of starting and stopping does to the flags, the silence check and the device.
module StreamPhases {
  import opened StreamControl

  const CAMERA := Streams(true, false, false)
  const IMU := Streams(false, true, false)
  const CAPTURE := Streams(true, true, false)

  function One(b: bool): nat {
    if b then 1 else 0
  }

  /** Fields that neither starting nor stopping touches. */
  predicate Kept(c: Ctl, d: Ctl) {
    && c.enabled == d.enabled && c.roverEnabled == d.roverEnabled && c.fatal == d.fatal
    && c.idleRuns == d.idleRuns && c.rebases == d.rebases
  }

  /** A phase: so many calls, and these flags, watched streams and device streams after it. */
  predicate Effect(c: Ctl, e: Exit, calls: nat, active: Streams, watched: Streams, device: Streams) {
    && Kept(c, e.ctl) && e.ctl.imuObject == c.imuObject && e.ctl.lidarObject == c.lidarObject
    && e.ctl.tick == c.tick + calls
    && e.ctl.active == active && e.ctl.watched == watched && e.ctl.device == device
  }

  predicate WantsCamera(c: Ctl) {
    c.enabled.camera && !c.active.camera
  }

  predicate WantsImu(c: Ctl) {
    c.enabled.imu && !c.active.imu
  }

  predicate WantsLidar(c: Ctl) {
    c.enabled.lidar && !c.active.lidar
  }

  lemma CameraEffect(c: Ctl, sdk: Sdk)
    ensures var e, o := StartCamera(c, sdk), sdk(c.tick);
            && Effect(c, e, One(WantsCamera(c)),
                      if WantsCamera(c) && o.Done? then c.active.(camera := true) else c.active,
                      if WantsCamera(c) && o.Done? then c.watched.(camera := true) else c.watched,
                      if WantsCamera(c) && !o.Throws? && !o.Refused? then c.device.(camera := true) else c.device)
            && e.ctl.roverActive == c.roverActive && e.ctl.discards == c.discards
            && (e.ok <==> !WantsCamera(c) || o.Done?)
  {
  }

  lemma ImuEffect(c: Ctl, sdk: Sdk)
    ensures var e, o, asked := StartImu(c, sdk), sdk(c.tick), WantsImu(c) && c.imuObject;
            && Effect(c, e, One(asked),
                      if asked && !o.Raises() then c.active.(imu := true) else c.active,
                      if asked then c.watched.(imu := true) else c.watched,
                      if asked && !o.Throws? then c.device.(imu := true) else c.device)
            && e.ctl.roverActive == c.roverActive && e.ctl.discards == c.discards
            && (e.ok <==> !WantsImu(c) || (asked && !o.Raises()))
  {
  }

  lemma EstablishEffect(c: Ctl, sdk: Sdk)
    ensures var e, asked := Establish(c, sdk), c.enabled.camera || c.enabled.imu;
            && Effect(c, e, One(asked), c.active, c.watched, c.device)
            && e.ctl.roverActive == c.roverActive && e.ctl.discards == c.discards
            && (e.ok <==> !asked || !sdk(c.tick).Raises())
  {
  }

  lemma RoverEffect(c: Ctl, sdk: Sdk)
    ensures var e, asked := StartRover(c, sdk), c.roverEnabled && !c.roverActive;
            && Effect(c, e, One(asked), c.active, c.watched, c.device)
            && e.ctl.discards == c.discards
            && (e.ok <==> !asked || sdk(c.tick).Done?)
            && e.ctl.roverActive == (c.roverActive || (asked && e.ok))
  {
  }

  lemma LidarEffect(c: Ctl, sdk: Sdk)
    ensures var e, o, asked := StartLidar(c, sdk), sdk(c.tick), WantsLidar(c) && c.lidarObject;
            && Effect(c, e, One(asked),
                      if asked && !o.Raises() then c.active.(lidar := true) else c.active,
                      if asked then c.watched.(lidar := true) else c.watched,
                      if asked && !o.Throws? then c.device.(lidar := true) else c.device)
            && e.ctl.roverActive == c.roverActive
            && e.ctl.discards == (if asked then After(c.discards, c.device) else c.discards)
            && (e.ok <==> !WantsLidar(c) || (asked && !o.Raises()))
  {
  }

  lemma StopRoverEffect(c: Ctl, sdk: Sdk)
    ensures var e := StopRover(c, sdk);
            && Effect(c, e, One(c.roverActive), c.active, c.watched, c.device)
            && e.ctl.discards == c.discards
            && (e.ok <==> !c.roverActive || !sdk(c.tick).Raises())
            && e.ctl.roverActive == (c.roverActive && !e.ok)
  {
  }

  lemma StopLidarEffect(c: Ctl, sdk: Sdk)
    ensures var e, o, asked := StopLidar(c, sdk), sdk(c.tick), c.active.lidar && c.lidarObject;
            && Effect(c, e, One(asked),
                      if asked && !o.Raises() then c.active.(lidar := false) else c.active, c.watched,
                      if asked && !o.Throws? then c.device.(lidar := false) else c.device)
            && e.ctl.roverActive == c.roverActive
            && e.ctl.discards == (if asked && !o.Raises() then After(c.discards, e.ctl.device) else c.discards)
            && (e.ok <==> !asked || !o.Raises())
  {
  }

  lemma StopCaptureEffect(c: Ctl, sdk: Sdk)
    ensures var e, o, both := StopCapture(c, sdk), sdk(c.tick), c.active.imu && c.imuObject;
            var asked := both || c.active.camera;
            && Effect(c, e, One(asked),
                      if !asked || o.Raises() then c.active
                      else if both then c.active.(camera := false, imu := false) else c.active.(camera := false),
                      c.watched,
                      if asked && !o.Throws? then c.device.(camera := false, imu := false) else c.device)
            && e.ctl.roverActive == c.roverActive && e.ctl.discards == c.discards
            && (e.ok <==> !asked || !o.Raises())
  {
  }
}
