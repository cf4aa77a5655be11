/** The proximity skill's state record and, for each of its operations, a function of
    the state before the call giving the state after it and the robot commands it
    issues, in order. The class `ProximitySkill.ProximitySkill` runs these operations
    step by step on mutable fields and is proved to agree with these functions. */
module Engagement {
  import opened Actuators
  import opened Zones

  // Tuning constants (seconds), test.py:11-19 and the literal second-prompt delay of test.py:326.
  const FaceTimeout: real := 8.0
  const NearPatFirstDelay: real := 4.0
  const NearPatSecondDelay: real := 6.0
  const FarSecondDelay: real := 5.0
  const CooldownFarFirst: real := 6.0
  const CooldownFarSecond: real := 10.0
  const CooldownMedium: real := 6.0
  const CooldownNearThank: real := 6.0

  /** The only distance sensor whose readings are used. */
  const CenterSensor: string := "Center"

  /** Touch sensors that count as a head pat. */
  const HeadSensors: seq<string> := ["HeadFront", "HeadBack", "HeadLeft", "HeadRight", "Scruff", "Chin"]

  /** Event subscriptions dropped when the skill finishes, in the order they are dropped. */
  const Subscriptions: seq<Subscription> := [DistanceEvent, FaceEvent, TouchEvent]

  /** The skill's global state. Times are seconds on the clock `time.time()` reads. */
  datatype State = State(
    zone: Option<Zone>,
    farFirstTime: Option<real>,
    farSecondPromptDone: bool,
    nearSince: Option<real>,
    askedForPat: bool,
    patReceived: bool,
    patPromptTime: Option<real>,
    secondPatPromptDone: bool,
    lastFaceTime: Option<real>,
    neutralMode: bool,
    lastFarFirstTime: real,      // last time each speech line was spoken
    lastFarSecondTime: real,
    lastMediumTime: real,
    lastNearThankTime: real,
    skillDone: bool)

  /** The state after an operation together with the commands it sent to the robot. */
  datatype Step = Step(state: State, out: seq<Command>)

  /** The globals as the module declares them, before the first reset. */
  const Declared: State :=
    State(None, None, false, None, false, false, None, false, None, true, 0.0, 0.0, 0.0, 0.0, false)

  /** A face, LED colour and arm posture, in the order the behaviours issue them. */
  function Pose(image: Picture, color: Rgb, left: int, right: int): seq<Command>
  {
    [Image(image), Led(color), Arm(Left, left, 50), Arm(Right, right, 50)]
  }

  const IdlePose: seq<Command> :=
    [Image(DefaultContent), Led(Rgb(0, 255, 0)), Head(0, 0, 0), Arm(Left, 0, 50), Arm(Right, 0, 50)]
  const FarFirstPose: seq<Command> := Pose(Amazement, Rgb(0, 0, 255), 80, 80)
  const FarSecondPose: seq<Command> := Pose(Admiration, Rgb(0, 0, 255), 70, 70)
  const MediumPose: seq<Command> := Pose(ContentRight, Rgb(255, 255, 0), 0, 80)
  const NearPose: seq<Command> := Pose(Joy2, Rgb(0, 255, 0), -90, -90)
  const PatFirstPose: seq<Command> := Pose(Admiration, Rgb(0, 128, 255), 40, 40)
  const PatSecondPose: seq<Command> := Pose(Joy, Rgb(255, 192, 203), 50, 50)
  const ThankPatPose: seq<Command> := Pose(JoyGoofy2, Rgb(0, 255, 0), -80, -80)

  /** Teardown after the head pat: face recognition off, then every subscription dropped. */
  const Teardown: seq<Command> :=
    [FaceRecognitionOff, EventUnregistered(DistanceEvent),
     EventUnregistered(FaceEvent), EventUnregistered(TouchEvent)]

  /** The pat-progress fields hold their reset values. */
  predicate PatProgressCleared(s: State)
  {
    !s.askedForPat && !s.patReceived && s.patPromptTime.None? && !s.secondPatPromptDone
  }

  /** The neutral idle state: no zone, no far or pat progress. */
  predicate IsNeutral(s: State)
  {
    && s.zone.None? && s.farFirstTime.None? && !s.farSecondPromptDone
    && s.nearSince.None? && PatProgressCleared(s)
    && s.neutralMode
  }

  /** The fields no reset touches: face recency, speech cooldown stamps and the latch. */
  predicate SameHistory(s: State, t: State)
  {
    && t.lastFaceTime == s.lastFaceTime
    && t.lastFarFirstTime == s.lastFarFirstTime && t.lastFarSecondTime == s.lastFarSecondTime
    && t.lastMediumTime == s.lastMediumTime && t.lastNearThankTime == s.lastNearThankTime
    && t.skillDone == s.skillDone
  }

  /** `go_neutral`: idle face, green LED, head level, arms down; clears zone, far and pat
      progress and enters neutral mode, keeping the face time and the cooldown stamps. */
  function GoNeutral(s: State): (r: Step)
    ensures IsNeutral(r.state) && SameHistory(s, r.state)
    ensures r.out == IdlePose
  {
    Step(s.(zone := None, farFirstTime := None, farSecondPromptDone := false,
            nearSince := None, askedForPat := false, patReceived := false,
            patPromptTime := None, secondPatPromptDone := false,
            neutralMode := true),
         IdlePose)
  }

  /** The state the skill starts in: the declared globals after the reset at load time. */
  function Start(): (r: Step)
    ensures IsNeutral(r.state) && !r.state.skillDone && r.state.lastFaceTime.None?
    ensures r.out == IdlePose
  {
    GoNeutral(Declared)
  }

  /** `behavior_far_first`. Inside its cooldown it does nothing at all: no speech, but also
      no pose, no LED and no neutral-mode update. */
  function BehaviorFarFirst(s: State, now: real): (r: Step)
    ensures now - s.lastFarFirstTime < CooldownFarFirst ==> r == Step(s, [])
    ensures now - s.lastFarFirstTime >= CooldownFarFirst ==>
      && r.state.lastFarFirstTime == now && !r.state.neutralMode
      && r.out == FarFirstPose + [Speech(ComeCloser)]
    // nothing else changes
    ensures r.state.(lastFarFirstTime := s.lastFarFirstTime, neutralMode := s.neutralMode) == s
  {
    if now - s.lastFarFirstTime < CooldownFarFirst then Step(s, [])
    else Step(s.(lastFarFirstTime := now, neutralMode := false), FarFirstPose + [Speech(ComeCloser)])
  }

  /** `behavior_far_second`: like the first invitation, all or nothing on its own cooldown. */
  function BehaviorFarSecond(s: State, now: real): (r: Step)
    ensures now - s.lastFarSecondTime < CooldownFarSecond ==> r == Step(s, [])
    ensures now - s.lastFarSecondTime >= CooldownFarSecond ==>
      r.state.lastFarSecondTime == now && r.out == FarSecondPose + [Speech(ComeOnCloser)]
    // nothing else changes
    ensures r.state.(lastFarSecondTime := s.lastFarSecondTime) == s
  {
    if now - s.lastFarSecondTime < CooldownFarSecond then Step(s, [])
    else Step(s.(lastFarSecondTime := now), FarSecondPose + [Speech(ComeOnCloser)])
  }

  /** The common tail of the medium and near behaviours: out of neutral mode, `nearSince`
      set to `since`, pat progress cleared. */
  function ClearNear(s: State, since: Option<real>): State
  {
    s.(neutralMode := false, nearSince := since, askedForPat := false, patReceived := false,
       patPromptTime := None, secondPatPromptDone := false)
  }

  /** `behavior_medium`: speaks only outside its cooldown, but always sets the medium pose,
      leaves neutral mode and clears the near and pat progress. */
  function BehaviorMedium(s: State, now: real): (r: Step)
    ensures r.out == (if now - s.lastMediumTime >= CooldownMedium then [Speech(HaveASeat)] else []) + MediumPose
    ensures r.state.lastMediumTime == if now - s.lastMediumTime >= CooldownMedium then now else s.lastMediumTime
    ensures !r.state.neutralMode && r.state.nearSince.None? && PatProgressCleared(r.state)
    // nothing else changes
    ensures r.state.(lastMediumTime := s.lastMediumTime, neutralMode := s.neutralMode,
                     nearSince := s.nearSince, askedForPat := s.askedForPat, patReceived := s.patReceived,
                     patPromptTime := s.patPromptTime, secondPatPromptDone := s.secondPatPromptDone) == s
  {
    if now - s.lastMediumTime >= CooldownMedium then
      Step(ClearNear(s.(lastMediumTime := now), None), [Speech(HaveASeat)] + MediumPose)
    else
      Step(ClearNear(s, None), MediumPose)
  }

  /** `behavior_near`: speaks only outside its cooldown, but always sets the near pose,
      leaves neutral mode, stamps `nearSince` and clears the pat progress. */
  function BehaviorNear(s: State, now: real): (r: Step)
    ensures r.out == (if now - s.lastNearThankTime >= CooldownNearThank then [Speech(ThankForSitting)] else []) + NearPose
    ensures r.state.lastNearThankTime == if now - s.lastNearThankTime >= CooldownNearThank then now else s.lastNearThankTime
    ensures !r.state.neutralMode && r.state.nearSince == Some(now) && PatProgressCleared(r.state)
    // nothing else changes
    ensures r.state.(lastNearThankTime := s.lastNearThankTime, neutralMode := s.neutralMode,
                     nearSince := s.nearSince, askedForPat := s.askedForPat, patReceived := s.patReceived,
                     patPromptTime := s.patPromptTime, secondPatPromptDone := s.secondPatPromptDone) == s
  {
    if now - s.lastNearThankTime >= CooldownNearThank then
      Step(ClearNear(s.(lastNearThankTime := now), Some(now)), [Speech(ThankForSitting)] + NearPose)
    else
      Step(ClearNear(s, Some(now)), NearPose)
  }

  /** `ask_for_pat_first`: the first request; records that it was asked and when. */
  function AskForPatFirst(s: State, now: real): (r: Step)
    ensures r.state.askedForPat && r.state.patPromptTime == Some(now)
    ensures r.state.(askedForPat := s.askedForPat, patPromptTime := s.patPromptTime) == s
    ensures r.out == PatFirstPose + [Speech(PatRequest)]
  {
    Step(s.(askedForPat := true, patPromptTime := Some(now)), PatFirstPose + [Speech(PatRequest)])
  }

  /** `ask_for_pat_second`: the second request; records that it was made and restamps the prompt time. */
  function AskForPatSecond(s: State, now: real): (r: Step)
    ensures r.state.secondPatPromptDone && r.state.patPromptTime == Some(now)
    ensures r.state.(secondPatPromptDone := s.secondPatPromptDone, patPromptTime := s.patPromptTime) == s
    ensures r.out == PatSecondPose + [Speech(PatPlease)]
  {
    Step(s.(secondPatPromptDone := true, patPromptTime := Some(now)), PatSecondPose + [Speech(PatPlease)])
  }

  /** `behavior_pat_thank_you`: thanks the user, sets the pat and terminal flags, then tears down. */
  function BehaviorPatThankYou(s: State): (r: Step)
    ensures r.state.patReceived && r.state.skillDone
    ensures r.state.(patReceived := s.patReceived, skillDone := s.skillDone) == s
    // the thank-you, then face recognition off, then one unsubscription per subscription, in order
    ensures |r.out| == |ThankPatPose| + 2 + |Subscriptions|
    ensures r.out[..|ThankPatPose| + 1] == ThankPatPose + [Speech(ThankForPat)]
    ensures r.out[|ThankPatPose| + 1..] == [FaceRecognitionOff] + seq(|Subscriptions|, i requires 0 <= i < |Subscriptions| => EventUnregistered(Subscriptions[i]))
  {
    Step(s.(patReceived := true, skillDone := true), ThankPatPose + [Speech(ThankForPat)] + Teardown)
  }

  /** `t` agrees with `s` on the zone, neutral mode, face recency and the terminal latch. */
  predicate SameFrame(s: State, t: State)
  {
    t.zone == s.zone && t.neutralMode == s.neutralMode && t.lastFaceTime == s.lastFaceTime && t.skillDone == s.skillDone
  }

  /** `t` agrees with `s` on the near and head-pat progress. */
  predicate SamePatProgress(s: State, t: State)
  {
    && t.nearSince == s.nearSince && t.askedForPat == s.askedForPat && t.patReceived == s.patReceived
    && t.patPromptTime == s.patPromptTime && t.secondPatPromptDone == s.secondPatPromptDone
  }

  /** The zone-change dispatch of `tof_callback`: records the new zone, resets the far
      progress (stamping it when FAR is entered) and runs that zone's entry behaviour. */
  function ZoneEntry(s: State, newZone: Option<Zone>, now: real): (r: Step)
    ensures newZone == s.zone ==> r == Step(s, [])
    ensures r.state.zone == newZone
    ensures r.state.skillDone == s.skillDone && r.state.lastFaceTime == s.lastFaceTime
    ensures !s.neutralMode ==> !r.state.neutralMode
    // entering FAR stamps the far progress and leaves the pat progress as it was
    ensures newZone != s.zone && newZone == Some(Far) ==>
      && r.state.farFirstTime == Some(now) && !r.state.farSecondPromptDone
      && r.state.nearSince == s.nearSince && r.state.askedForPat == s.askedForPat
      && r.state.patPromptTime == s.patPromptTime && r.state.secondPatPromptDone == s.secondPatPromptDone
    // entering MEDIUM or NEAR clears the far and the pat progress; NEAR stamps its entry time
    ensures newZone != s.zone && newZone == Some(Medium) ==>
      r.state.farFirstTime.None? && !r.state.farSecondPromptDone && r.state.nearSince.None? && PatProgressCleared(r.state)
    ensures newZone != s.zone && newZone == Some(Near) ==>
      r.state.farFirstTime.None? && !r.state.farSecondPromptDone && r.state.nearSince == Some(now) && PatProgressCleared(r.state)
    // the behaviour of the new zone: FAR greets unless on cooldown; MEDIUM and NEAR always
    // show their pose, preceded by their greeting when it is off cooldown; an unset zone is silent
    ensures newZone != s.zone && newZone == Some(Far) ==>
      && r.out == (if now - s.lastFarFirstTime < CooldownFarFirst then [] else FarFirstPose + [Speech(ComeCloser)])
      && r.state.lastFarFirstTime == (if now - s.lastFarFirstTime < CooldownFarFirst then s.lastFarFirstTime else now)
    ensures newZone != s.zone && newZone == Some(Medium) ==>
      && r.out == (if now - s.lastMediumTime >= CooldownMedium then [Speech(HaveASeat)] else []) + MediumPose
      && r.state.lastMediumTime == (if now - s.lastMediumTime >= CooldownMedium then now else s.lastMediumTime)
    ensures newZone != s.zone && newZone == Some(Near) ==>
      && r.out == (if now - s.lastNearThankTime >= CooldownNearThank then [Speech(ThankForSitting)] else []) + NearPose
      && r.state.lastNearThankTime == (if now - s.lastNearThankTime >= CooldownNearThank then now else s.lastNearThankTime)
    ensures newZone != s.zone && newZone == None ==> r.out == []
    // each entry moves only its own cooldown stamp
    ensures newZone != Some(Far) ==> r.state.lastFarFirstTime == s.lastFarFirstTime
    ensures newZone != Some(Medium) ==> r.state.lastMediumTime == s.lastMediumTime
    ensures newZone != Some(Near) ==> r.state.lastNearThankTime == s.lastNearThankTime
    ensures r.state.lastFarSecondTime == s.lastFarSecondTime
  {
    if newZone == s.zone then Step(s, [])
    else
      match newZone
      case Some(Far) => BehaviorFarFirst(s.(zone := newZone, farFirstTime := Some(now), farSecondPromptDone := false), now)
      case Some(Medium) => BehaviorMedium(s.(zone := newZone, farFirstTime := None, farSecondPromptDone := false), now)
      case Some(Near) => BehaviorNear(s.(zone := newZone, farFirstTime := None, farSecondPromptDone := false), now)
      case None => Step(s.(zone := None), [])
  }

  /** The second far prompt is due: still FAR, not yet prompted, and more than 5 s since FAR was entered. */
  predicate FarSecondDue(s: State, now: real)
  {
    s.zone == Some(Far) && s.farFirstTime.Some? && !s.farSecondPromptDone
    && now - s.farFirstTime.value > FarSecondDelay
  }

  /** The far follow-up of `tof_callback`. Once due, the second prompt is marked done even
      when its cooldown kept it silent. */
  function FarFollowUp(s: State, now: real): (r: Step)
    ensures !FarSecondDue(s, now) ==> r == Step(s, [])
    ensures SameFrame(s, r.state) && SamePatProgress(s, r.state)
    ensures FarSecondDue(s, now) ==>
      var f := BehaviorFarSecond(s, now);
      r == Step(f.state.(farSecondPromptDone := true), f.out)
  {
    if FarSecondDue(s, now) then
      var f := BehaviorFarSecond(s, now);
      Step(f.state.(farSecondPromptDone := true), f.out)
    else Step(s, [])
  }

  /** The first head-pat request is due: NEAR, no pat yet, not asked, and more than 4 s since NEAR was entered. */
  predicate FirstPatDue(s: State, now: real)
  {
    s.zone == Some(Near) && s.nearSince.Some? && !s.patReceived
    && !s.askedForPat && now - s.nearSince.value > NearPatFirstDelay
  }

  /** The second head-pat request is due: NEAR, no pat yet, asked once, and more than 6 s since that request. */
  predicate SecondPatDue(s: State, now: real)
  {
    s.zone == Some(Near) && s.nearSince.Some? && !s.patReceived
    && s.askedForPat && !s.secondPatPromptDone && s.patPromptTime.Some?
    && now - s.patPromptTime.value > NearPatSecondDelay
  }

  /** The head-pat escalation of `tof_callback`: the first request exactly when it is due,
      the second exactly when it is due, and otherwise nothing. */
  function PatEscalation(s: State, now: real): (r: Step)
    ensures FirstPatDue(s, now) ==> r == AskForPatFirst(s, now)
    ensures SecondPatDue(s, now) ==> r == AskForPatSecond(s, now)
    ensures !FirstPatDue(s, now) && !SecondPatDue(s, now) ==> r == Step(s, [])
    ensures SameFrame(s, r.state)
  {
    if s.zone == Some(Near) && s.nearSince.Some? && !s.patReceived then
      if !s.askedForPat && now - s.nearSince.value > NearPatFirstDelay then AskForPatFirst(s, now)
      else if s.askedForPat && !s.secondPatPromptDone && s.patPromptTime.Some? then
        if now - s.patPromptTime.value > NearPatSecondDelay then AskForPatSecond(s, now)
        else Step(s, [])
      else Step(s, [])
    else Step(s, [])
  }

  /** A face was seen no more than `FaceTimeout` seconds ago. */
  predicate FaceRecent(s: State, now: real)
  {
    s.lastFaceTime.Some? && now - s.lastFaceTime.value <= FaceTimeout
  }

  /** `tof_callback` acts on the reading: not finished, a Center reading, and a recent face. */
  predicate TofLive(s: State, sensor: string, now: real)
  {
    !s.skillDone && sensor == CenterSensor && FaceRecent(s, now)
  }

  /** What `tof_callback` does with a reading it acts on: classify it, run the zone-change
      dispatch, then the far follow-up and the head-pat escalation, in that order. */
  function React(s: State, dist: Option<real>, now: real): (r: Step)
    ensures r.state.zone == Classify(dist, s.zone)
    ensures !s.neutralMode ==> !r.state.neutralMode
    ensures Classify(dist, s.zone) == s.zone ==>
      r.state.nearSince == s.nearSince && r.state.farFirstTime == s.farFirstTime
    ensures s.zone != Some(Near) && Classify(dist, s.zone) == Some(Near) ==>
      r.state.nearSince == Some(now) && PatProgressCleared(r.state)
    ensures s.zone != Some(Far) && Classify(dist, s.zone) == Some(Far) ==>
      r.state.farFirstTime == Some(now) && !r.state.farSecondPromptDone
    ensures r.state.skillDone == s.skillDone && r.state.lastFaceTime == s.lastFaceTime
  {
    var e := ZoneEntry(s, Classify(dist, s.zone), now);
    var f := FarFollowUp(e.state, now);
    var p := PatEscalation(f.state, now);
    Step(p.state, e.out + f.out + p.out)
  }

  /** `tof_callback` on a reading from `sensor` of `dist` metres (absent if missing) at time `now`. */
  function Tof(s: State, sensor: string, dist: Option<real>, now: real): (r: Step)
    // terminal latch, other sensors, and "no face ever seen" change nothing and send nothing
    ensures s.skillDone || sensor != CenterSensor || s.lastFaceTime.None? ==> r == Step(s, [])
    // a stale face resets to neutral once, and is silent when already neutral
    ensures !s.skillDone && sensor == CenterSensor && s.lastFaceTime.Some? && !FaceRecent(s, now) ==>
      r == if s.neutralMode then Step(s, []) else GoNeutral(s)
    // otherwise the reading is classified and neutral mode is left
    ensures TofLive(s, sensor, now) ==> r.state.zone == Classify(dist, s.zone) && !r.state.neutralMode
    // the same zone again never re-runs its entry behaviour
    ensures TofLive(s, sensor, now) && Classify(dist, s.zone) == s.zone ==>
      r.state.nearSince == s.nearSince && r.state.farFirstTime == s.farFirstTime
    ensures TofLive(s, sensor, now) && s.zone != Some(Near) && Classify(dist, s.zone) == Some(Near) ==>
      r.state.nearSince == Some(now) && PatProgressCleared(r.state)
    ensures TofLive(s, sensor, now) && s.zone != Some(Far) && Classify(dist, s.zone) == Some(Far) ==>
      r.state.farFirstTime == Some(now) && !r.state.farSecondPromptDone
    // a distance reading never finishes the skill and never touches face recency
    ensures r.state.skillDone == s.skillDone && r.state.lastFaceTime == s.lastFaceTime
  {
    if s.skillDone || sensor != CenterSensor || s.lastFaceTime.None? then Step(s, [])
    else if now - s.lastFaceTime.value > FaceTimeout then
      if s.neutralMode then Step(s, []) else GoNeutral(s)
    else React(s.(neutralMode := false), dist, now)
  }

  /** `face_callback` at time `now`: records the face time unless the skill is finished. */
  function Face(s: State, now: real): (r: Step)
    ensures s.skillDone ==> r == Step(s, [])
    ensures !s.skillDone ==> r.state == s.(lastFaceTime := Some(now)) && r.out == []
  {
    if s.skillDone then Step(s, []) else Step(s.(lastFaceTime := Some(now)), [])
  }

  /** A touch that `touch_callback` takes as the head pat. */
  predicate PatAccepted(s: State, sensor: string, contacted: bool)
  {
    !s.skillDone && contacted && s.zone == Some(Near) && !s.patReceived && sensor in HeadSensors
  }

  /** `touch_callback`: only a contacted head-region touch while NEAR and before any pat
      finishes the skill; any other touch changes nothing and sends nothing. */
  function Touch(s: State, sensor: string, contacted: bool): (r: Step)
    ensures r.state.skillDone <==> s.skillDone || PatAccepted(s, sensor, contacted)
    ensures PatAccepted(s, sensor, contacted) ==> r == BehaviorPatThankYou(s)
    ensures !PatAccepted(s, sensor, contacted) ==> r == Step(s, [])
  {
    if s.skillDone then Step(s, [])
    else if !contacted || s.zone != Some(Near) || s.patReceived then Step(s, [])
    else if sensor in HeadSensors then BehaviorPatThankYou(s)
    else Step(s, [])
  }

  /** A sensor event as delivered to one of the three callbacks. */
  datatype Event =
    | Distance(sensor: string, dist: Option<real>, now: real)
    | FaceSeen(now: real)
    | Touched(sensor: string, contacted: bool)

  /** Delivers one event to its callback. */
  function Handle(s: State, e: Event): Step
  {
    match e
    case Distance(sensor, dist, now) => Tof(s, sensor, dist, now)
    case FaceSeen(now) => Face(s, now)
    case Touched(sensor, contacted) => Touch(s, sensor, contacted)
  }

  /** Delivers a series of events one after another, concatenating the commands sent. */
  function Run(s: State, events: seq<Event>): Step
    decreases |events|
  {
    if events == [] then Step(s, [])
    else
      var h := Handle(s, events[0]);
      var t := Run(h.state, events[1..]);
      Step(t.state, h.out + t.out)
  }
}
