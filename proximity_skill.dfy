/** The proximity skill as the program runs it: module globals that the callbacks update
    in place and a robot they send commands to. Every method is proved to produce exactly
    the state and the commands its function in `Engagement` gives for the state before
    the call. */
module ProximitySkill {
  import opened Actuators
  import opened Zones
  import Engagement
  import EngagementProofs

  class ProximitySkill {
    const misty: Robot

    var zone: Option<Zone>
    var farFirstTime: Option<real>
    var farSecondPromptDone: bool
    var nearSince: Option<real>
    var askedForPat: bool
    var patReceived: bool
    var patPromptTime: Option<real>
    var secondPatPromptDone: bool
    var lastFaceTime: Option<real>
    var neutralMode: bool
    var lastFarFirstTime: real
    var lastFarSecondTime: real
    var lastMediumTime: real
    var lastNearThankTime: real
    var skillDone: bool

    /** The globals as one value. */
    function Snapshot(): Engagement.State
      reads this
    {
      Engagement.State(zone, farFirstTime, farSecondPromptDone, nearSince, askedForPat, patReceived,
                       patPromptTime, secondPatPromptDone, lastFaceTime, neutralMode,
                       lastFarFirstTime, lastFarSecondTime, lastMediumTime, lastNearThankTime, skillDone)
    }

    ghost predicate Valid()
      reads this
    {
      EngagementProofs.Inv(Snapshot())
    }

    /** Loading the program: the declared globals, then the reset `go_neutral()` at module level. */
    constructor()
      ensures fresh(misty)
      ensures Snapshot() == Engagement.Start().state && misty.trace == Engagement.Start().out
      ensures Valid()
    {
      misty := new Robot();
      zone, farFirstTime, farSecondPromptDone := None, None, false;
      nearSince, askedForPat, patReceived, patPromptTime, secondPatPromptDone := None, false, false, None, false;
      lastFaceTime, neutralMode := None, true;
      lastFarFirstTime, lastFarSecondTime, lastMediumTime, lastNearThankTime := 0.0, 0.0, 0.0, 0.0;
      skillDone := false;
      new;
      GoNeutral();
      EngagementProofs.StartInv();
    }

    /** Sends a face, an LED colour and a posture for both arms, in that order. */
    method ShowPose(image: Picture, r: int, g: int, b: int, left: int, right: int)
      modifies misty
      ensures misty.trace == old(misty.trace) + Engagement.Pose(image, Rgb(r, g, b), left, right)
    {
      misty.DisplayImage(image);
      misty.ChangeLed(r, g, b);
      misty.MoveArm(Left, left, 50);
      misty.MoveArm(Right, right, 50);
    }

    /** The idle face, green LED, level head and lowered arms of `go_neutral`. */
    method ShowIdle()
      modifies misty
      ensures misty.trace == old(misty.trace) + Engagement.IdlePose
    {
      misty.DisplayImage(DefaultContent);
      misty.ChangeLed(0, 255, 0);
      misty.MoveHead(0, 0, 0);
      misty.MoveArm(Left, 0, 50);
      misty.MoveArm(Right, 0, 50);
    }

    method GoNeutral()
      modifies this, misty
      ensures Snapshot() == Engagement.GoNeutral(old(Snapshot())).state
      ensures misty.trace == old(misty.trace) + Engagement.GoNeutral(old(Snapshot())).out
    {
      ShowIdle();
      zone, farFirstTime, farSecondPromptDone := None, None, false;
      nearSince, askedForPat, patReceived, patPromptTime, secondPatPromptDone := None, false, false, None, false;
      neutralMode := true;
    }

    method BehaviorFarFirst(now: real)
      modifies this, misty
      ensures Snapshot() == Engagement.BehaviorFarFirst(old(Snapshot()), now).state
      ensures misty.trace == old(misty.trace) + Engagement.BehaviorFarFirst(old(Snapshot()), now).out
    {
      if now - lastFarFirstTime < Engagement.CooldownFarFirst {
        return;
      }
      lastFarFirstTime := now;
      neutralMode := false;
      ShowPose(Amazement, 0, 0, 255, 80, 80);
      misty.Speak(ComeCloser);
      AppendAssoc(old(misty.trace), Engagement.FarFirstPose, [Speech(ComeCloser)]);
    }

    method BehaviorFarSecond(now: real)
      modifies this, misty
      ensures Snapshot() == Engagement.BehaviorFarSecond(old(Snapshot()), now).state
      ensures misty.trace == old(misty.trace) + Engagement.BehaviorFarSecond(old(Snapshot()), now).out
    {
      if now - lastFarSecondTime < Engagement.CooldownFarSecond {
        return;
      }
      lastFarSecondTime := now;
      ShowPose(Admiration, 0, 0, 255, 70, 70);
      misty.Speak(ComeOnCloser);
      AppendAssoc(old(misty.trace), Engagement.FarSecondPose, [Speech(ComeOnCloser)]);
    }

    /** The reset of the near and head-pat progress that ends the medium and near behaviours. */
    method ResetPatProgress(since: Option<real>)
      modifies this
      ensures Snapshot() == old(Snapshot()).(nearSince := since, askedForPat := false, patReceived := false,
                                             patPromptTime := None, secondPatPromptDone := false)
    {
      nearSince, askedForPat, patReceived, patPromptTime, secondPatPromptDone := since, false, false, None, false;
    }

    method BehaviorMedium(now: real)
      modifies this, misty
      ensures Snapshot() == Engagement.BehaviorMedium(old(Snapshot()), now).state
      ensures misty.trace == old(misty.trace) + Engagement.BehaviorMedium(old(Snapshot()), now).out
    {
      ghost var said: seq<Command> := [];
      if now - lastMediumTime >= Engagement.CooldownMedium {
        lastMediumTime := now;
        misty.Speak(HaveASeat);
        said := [Speech(HaveASeat)];
      }
      neutralMode := false;
      ShowPose(ContentRight, 255, 255, 0, 0, 80);
      AppendAssoc(old(misty.trace), said, Engagement.MediumPose);
      ResetPatProgress(None);
    }

    method BehaviorNear(now: real)
      modifies this, misty
      ensures Snapshot() == Engagement.BehaviorNear(old(Snapshot()), now).state
      ensures misty.trace == old(misty.trace) + Engagement.BehaviorNear(old(Snapshot()), now).out
    {
      ghost var said: seq<Command> := [];
      if now - lastNearThankTime >= Engagement.CooldownNearThank {
        lastNearThankTime := now;
        misty.Speak(ThankForSitting);
        said := [Speech(ThankForSitting)];
      }
      neutralMode := false;
      ShowPose(Joy2, 0, 255, 0, -90, -90);
      AppendAssoc(old(misty.trace), said, Engagement.NearPose);
      ResetPatProgress(Some(now));
    }

    /** `now` is the clock reading the request is stamped with. */
    method AskForPatFirst(now: real)
      modifies this, misty
      ensures Snapshot() == Engagement.AskForPatFirst(old(Snapshot()), now).state
      ensures misty.trace == old(misty.trace) + Engagement.AskForPatFirst(old(Snapshot()), now).out
    {
      ShowPose(Admiration, 0, 128, 255, 40, 40);
      misty.Speak(PatRequest);
      AppendAssoc(old(misty.trace), Engagement.PatFirstPose, [Speech(PatRequest)]);
      askedForPat := true;
      patPromptTime := Some(now);
    }

    /** `now` is the clock reading the request is stamped with. */
    method AskForPatSecond(now: real)
      modifies this, misty
      ensures Snapshot() == Engagement.AskForPatSecond(old(Snapshot()), now).state
      ensures misty.trace == old(misty.trace) + Engagement.AskForPatSecond(old(Snapshot()), now).out
    {
      ShowPose(Joy, 255, 192, 203, 50, 50);
      misty.Speak(PatPlease);
      AppendAssoc(old(misty.trace), Engagement.PatSecondPose, [Speech(PatPlease)]);
      secondPatPromptDone := true;
      patPromptTime := Some(now);
    }

    method BehaviorPatThankYou()
      modifies this, misty
      ensures Snapshot() == Engagement.BehaviorPatThankYou(old(Snapshot())).state
      ensures misty.trace == old(misty.trace) + Engagement.BehaviorPatThankYou(old(Snapshot())).out
    {
      ShowPose(JoyGoofy2, 0, 255, 0, -80, -80);
      misty.Speak(ThankForPat);
      patReceived := true;
      skillDone := true;
      misty.StopFaceRecognition();
      ghost var thanked := old(misty.trace) + Engagement.ThankPatPose + [Speech(ThankForPat)];
      assert misty.trace == thanked + Engagement.Teardown[..1];
      for k := 0 to |Engagement.Subscriptions|
        invariant misty.trace == thanked + Engagement.Teardown[..k + 1]
        invariant Snapshot() == old(Snapshot()).(patReceived := true, skillDone := true)
      {
        assert Engagement.Teardown[k + 1] == EventUnregistered(Engagement.Subscriptions[k]);
        assert Engagement.Teardown[..k + 2] == Engagement.Teardown[..k + 1] + [Engagement.Teardown[k + 1]];
        misty.UnregisterEvent(Engagement.Subscriptions[k]);
      }
      assert Engagement.Teardown[..4] == Engagement.Teardown;
    }

    /** Entering FAR inside `tof_callback`: stamp the far progress, then the first invitation. */
    method EnterFar(now: real)
      requires zone != Some(Far)
      modifies this, misty
      ensures Snapshot() == Engagement.ZoneEntry(old(Snapshot()), Some(Far), now).state
      ensures misty.trace == old(misty.trace) + Engagement.ZoneEntry(old(Snapshot()), Some(Far), now).out
    {
      zone := Some(Far);
      farFirstTime := Some(now);
      farSecondPromptDone := false;
      BehaviorFarFirst(now);
    }

    /** Entering MEDIUM inside `tof_callback`: clear the far progress, then the medium behaviour. */
    method EnterMedium(now: real)
      requires zone != Some(Medium)
      modifies this, misty
      ensures Snapshot() == Engagement.ZoneEntry(old(Snapshot()), Some(Medium), now).state
      ensures misty.trace == old(misty.trace) + Engagement.ZoneEntry(old(Snapshot()), Some(Medium), now).out
    {
      zone := Some(Medium);
      farFirstTime := None;
      farSecondPromptDone := false;
      BehaviorMedium(now);
    }

    /** Entering NEAR inside `tof_callback`: clear the far progress, then the near behaviour. */
    method EnterNear(now: real)
      requires zone != Some(Near)
      modifies this, misty
      ensures Snapshot() == Engagement.ZoneEntry(old(Snapshot()), Some(Near), now).state
      ensures misty.trace == old(misty.trace) + Engagement.ZoneEntry(old(Snapshot()), Some(Near), now).out
    {
      zone := Some(Near);
      farFirstTime := None;
      farSecondPromptDone := false;
      BehaviorNear(now);
    }

    /** The zone-change dispatch inside `tof_callback`. */
    method EnterZone(newZone: Option<Zone>, now: real)
      modifies this, misty
      ensures Snapshot() == Engagement.ZoneEntry(old(Snapshot()), newZone, now).state
      ensures misty.trace == old(misty.trace) + Engagement.ZoneEntry(old(Snapshot()), newZone, now).out
    {
      if newZone != zone {
        match newZone
        case Some(Far) => EnterFar(now);
        case Some(Medium) => EnterMedium(now);
        case Some(Near) => EnterNear(now);
        case None => zone := None;
      }
    }

    /** The far follow-up inside `tof_callback`. */
    method FarFollowUp(now: real)
      modifies this, misty
      ensures Snapshot() == Engagement.FarFollowUp(old(Snapshot()), now).state
      ensures misty.trace == old(misty.trace) + Engagement.FarFollowUp(old(Snapshot()), now).out
    {
      if zone == Some(Far) && farFirstTime.Some? && !farSecondPromptDone {
        if now - farFirstTime.value > Engagement.FarSecondDelay {
          BehaviorFarSecond(now);
          farSecondPromptDone := true;
        }
      }
    }

    /** The head-pat escalation inside `tof_callback`. */
    method PatEscalation(now: real)
      modifies this, misty
      ensures Snapshot() == Engagement.PatEscalation(old(Snapshot()), now).state
      ensures misty.trace == old(misty.trace) + Engagement.PatEscalation(old(Snapshot()), now).out
    {
      if zone == Some(Near) && nearSince.Some? && !patReceived {
        if !askedForPat && now - nearSince.value > Engagement.NearPatFirstDelay {
          AskForPatFirst(now);
        } else if askedForPat && !secondPatPromptDone && patPromptTime.Some? {
          if now - patPromptTime.value > Engagement.NearPatSecondDelay {
            AskForPatSecond(now);
          }
        }
      }
    }

    /** The part of `tof_callback` after the face gate. */
    method React(dist: Option<real>, now: real)
      modifies this, misty
      ensures Snapshot() == Engagement.React(old(Snapshot()), dist, now).state
      ensures misty.trace == old(misty.trace) + Engagement.React(old(Snapshot()), dist, now).out
    {
      ghost var t0 := misty.trace;
      var newZone := Classify(dist, zone);
      EnterZone(newZone, now);
      ghost var e := Engagement.ZoneEntry(old(Snapshot()), newZone, now);
      FarFollowUp(now);
      ghost var f := Engagement.FarFollowUp(e.state, now);
      PatEscalation(now);
      ghost var p := Engagement.PatEscalation(f.state, now);
      AppendAssoc(t0, e.out, f.out);
      AppendAssoc(t0, e.out + f.out, p.out);
    }

    /** `tof_callback` for a reading from `sensor` of `dist` metres (absent if missing) at time `now`. */
    method TofCallback(sensor: string, dist: Option<real>, now: real)
      requires Valid()
      modifies this, misty
      ensures Snapshot() == Engagement.Tof(old(Snapshot()), sensor, dist, now).state
      ensures misty.trace == old(misty.trace) + Engagement.Tof(old(Snapshot()), sensor, dist, now).out
      ensures old(skillDone) ==> unchanged(this) && misty.trace == old(misty.trace)
      ensures Valid()
    {
      EngagementProofs.TofInv(Snapshot(), sensor, dist, now);
      if skillDone {
        return;
      }
      if sensor != Engagement.CenterSensor {
        return;
      }
      if lastFaceTime.None? {
        return;
      }
      if now - lastFaceTime.value > Engagement.FaceTimeout {
        if !neutralMode {
          GoNeutral();
        }
        return;
      }
      neutralMode := false;
      React(dist, now);
    }

    /** `face_callback` at time `now`; the face's label is not used. */
    method FaceCallback(now: real)
      requires Valid()
      modifies this
      ensures Snapshot() == Engagement.Face(old(Snapshot()), now).state
      ensures old(skillDone) ==> unchanged(this)
      ensures Valid()
    {
      if skillDone {
        return;
      }
      lastFaceTime := Some(now);
    }

    /** `touch_callback` for a touch on `sensor`, pressed when `contacted`. */
    method TouchCallback(sensor: string, contacted: bool)
      requires Valid()
      modifies this, misty
      ensures Snapshot() == Engagement.Touch(old(Snapshot()), sensor, contacted).state
      ensures misty.trace == old(misty.trace) + Engagement.Touch(old(Snapshot()), sensor, contacted).out
      ensures old(skillDone) ==> unchanged(this) && misty.trace == old(misty.trace)
      ensures Valid()
    {
      EngagementProofs.TouchInv(Snapshot(), sensor, contacted);
      if skillDone {
        return;
      }
      if !contacted || zone != Some(Near) || patReceived {
        return;
      }
      if sensor in Engagement.HeadSensors {
        BehaviorPatThankYou();
      }
    }
  }
}
