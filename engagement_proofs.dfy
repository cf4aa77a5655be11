/** Properties of the proximity skill that span one or more events: the state invariant,
    the absorbing terminal latch, the face gate, and the bound on head-pat requests. */
module EngagementProofs {
  import opened Actuators
  import opened Zones
  import opened Engagement

  // ---------------------------------------------------------------------------
  // The state invariant
  // ---------------------------------------------------------------------------

  /** What every reachable state satisfies: a pat is received exactly when the skill is
      finished, and only while NEAR; pat progress only exists after a first request made
      while NEAR; far progress only exists while FAR. */
  predicate Inv(s: State)
  {
    && (s.patReceived <==> s.skillDone)
    && (s.skillDone ==> s.zone == Some(Near))
    && (!s.askedForPat ==> !s.secondPatPromptDone && s.patPromptTime.None?)
    && (s.askedForPat ==> s.nearSince.Some? && s.patPromptTime.Some?)
    && (s.zone == Some(Near) ==> s.nearSince.Some?)
    && (s.zone == Some(Far) <==> s.farFirstTime.Some?)
    && (s.zone != Some(Far) ==> !s.farSecondPromptDone)
  }

  lemma StartInv()
    ensures Inv(Start().state)
  {
  }

  lemma ZoneEntryInv(s: State, z: Option<Zone>, now: real)
    requires Inv(s) && !s.skillDone && (z != s.zone ==> z.Some?)
    ensures Inv(ZoneEntry(s, z, now).state)
  {
  }

  lemma FarFollowUpInv(s: State, now: real)
    requires Inv(s)
    ensures Inv(FarFollowUp(s, now).state)
  {
  }

  lemma PatEscalationInv(s: State, now: real)
    requires Inv(s)
    ensures Inv(PatEscalation(s, now).state)
  {
  }

  lemma TofInv(s: State, sensor: string, dist: Option<real>, now: real)
    requires Inv(s)
    ensures Inv(Tof(s, sensor, dist, now).state)
  {
    if TofLive(s, sensor, now) {
      var s1 := s.(neutralMode := false);
      var z := Classify(dist, s1.zone);
      var e := ZoneEntry(s1, z, now);
      ZoneEntryInv(s1, z, now);
      FarFollowUpInv(e.state, now);
      PatEscalationInv(FarFollowUp(e.state, now).state, now);
    }
  }

  lemma FaceInv(s: State, now: real)
    requires Inv(s)
    ensures Inv(Face(s, now).state)
  {
  }

  lemma TouchInv(s: State, sensor: string, contacted: bool)
    requires Inv(s)
    ensures Inv(Touch(s, sensor, contacted).state)
  {
  }

  lemma HandleInv(s: State, e: Event)
    requires Inv(s)
    ensures Inv(Handle(s, e).state)
  {
    match e
    case Distance(sensor, dist, now) => TofInv(s, sensor, dist, now);
    case FaceSeen(now) => FaceInv(s, now);
    case Touched(sensor, contacted) => TouchInv(s, sensor, contacted);
  }

  /** Every state reached from a valid state by any series of events is valid. */
  lemma {:induction false} RunInv(s: State, events: seq<Event>)
    requires Inv(s)
    ensures Inv(Run(s, events).state)
    decreases |events|
  {
    if events != [] {
      HandleInv(s, events[0]);
      RunInv(Handle(s, events[0]).state, events[1..]);
    }
  }

  /** In particular every state the skill can reach from its start is valid. */
  lemma ReachableInv(events: seq<Event>)
    ensures Inv(Run(Start().state, events).state)
  {
    StartInv();
    RunInv(Start().state, events);
  }

  // ---------------------------------------------------------------------------
  // Terminal latch
  // ---------------------------------------------------------------------------

  /** Once the skill is finished, no series of events changes anything or sends any command. */
  lemma {:induction false} RunAbsorbing(s: State, events: seq<Event>)
    requires s.skillDone
    ensures Run(s, events) == Step(s, [])
    decreases |events|
  {
    if events != [] {
      RunAbsorbing(Handle(s, events[0]).state, events[1..]);
    }
  }

  /** The accepted head pat is the last thing the skill ever does. */
  lemma PatEndsSkill(s: State, sensor: string, contacted: bool, events: seq<Event>)
    requires PatAccepted(s, sensor, contacted)
    ensures var t := Touch(s, sensor, contacted).state;
      t.skillDone && t.patReceived && Run(t, events) == Step(t, [])
  {
    RunAbsorbing(Touch(s, sensor, contacted).state, events);
  }

  // ---------------------------------------------------------------------------
  // Face gate
  // ---------------------------------------------------------------------------

  predicate NoFaceEvents(events: seq<Event>)
  {
    forall i :: 0 <= i < |events| ==> !events[i].FaceSeen?
  }

  /** Without any face ever seen, distance readings are ignored and no touch can be a head
      pat (the zone never becomes NEAR), so nothing changes and nothing is sent. */
  lemma {:induction false} NoFaceNoEffect(s: State, events: seq<Event>)
    requires s.lastFaceTime.None? && s.zone != Some(Near)
    requires NoFaceEvents(events)
    ensures Run(s, events) == Step(s, [])
    decreases |events|
  {
    if events != [] {
      assert !events[0].FaceSeen?;
      assert Handle(s, events[0]) == Step(s, []);
      assert NoFaceEvents(events[1..]) by {
        forall i | 0 <= i < |events[1..]| ensures !events[1..][i].FaceSeen? {
          assert events[1..][i] == events[i + 1];
        }
      }
      NoFaceNoEffect(s, events[1..]);
    }
  }

  /** From its start, a skill that never sees a face stays in the start state and silent. */
  lemma NeverSeenFace(events: seq<Event>)
    requires NoFaceEvents(events)
    ensures Run(Start().state, events) == Step(Start().state, [])
  {
    NoFaceNoEffect(Start().state, events);
  }

  /** An unset zone does not imply neutral mode: a Center reading with no distance value,
      while a face is recent, clears neutral mode and leaves the zone unset. */
  lemma AbsentReadingLeavesNoZoneOutOfNeutral()
    ensures var s := Start().state.(lastFaceTime := Some(0.0));
      var r := Tof(s, CenterSensor, None, 1.0);
      r.state.zone.None? && !r.state.neutralMode && r.out == []
  {
  }

  // ---------------------------------------------------------------------------
  // Head-pat requests
  // ---------------------------------------------------------------------------

  predicate IsPrompt(c: Command)
  {
    c == Speech(PatRequest) || c == Speech(PatPlease)
  }

  /** Number of head-pat requests among `out`. */
  function Prompts(out: seq<Command>): nat
    decreases |out|
  {
    if out == [] then 0
    else Prompts(out[..|out| - 1]) + (if IsPrompt(out[|out| - 1]) then 1 else 0)
  }

  lemma {:induction false} PromptsAppend(a: seq<Command>, b: seq<Command>)
    ensures Prompts(a + b) == Prompts(a) + Prompts(b)
    decreases |b|
  {
    if b != [] {
      assert (a + b)[..|a + b| - 1] == a + b[..|b| - 1];
      assert (a + b)[|a + b| - 1] == b[|b| - 1];
      PromptsAppend(a, b[..|b| - 1]);
    } else {
      assert a + b == a;
    }
  }

  /** `out` holds no head-pat request. */
  predicate Quiet(out: seq<Command>)
  {
    forall i :: 0 <= i < |out| ==> !IsPrompt(out[i])
  }

  lemma {:induction false} QuietNoPrompts(out: seq<Command>)
    requires Quiet(out)
    ensures Prompts(out) == 0
    decreases |out|
  {
    if out != [] {
      var init := out[..|out| - 1];
      assert Quiet(init) by {
        forall i | 0 <= i < |init| ensures !IsPrompt(init[i]) {
          assert init[i] == out[i];
        }
      }
      QuietNoPrompts(init);
    }
  }

  lemma QuietAppend(a: seq<Command>, b: seq<Command>)
    requires Quiet(a) && Quiet(b)
    ensures Quiet(a + b)
  {
    forall i | 0 <= i < |a + b| ensures !IsPrompt((a + b)[i]) {
      if i < |a| { assert (a + b)[i] == a[i]; } else { assert (a + b)[i] == b[i - |a|]; }
    }
  }

  lemma PosesQuiet()
    ensures Quiet(IdlePose) && Quiet(FarFirstPose) && Quiet(FarSecondPose)
    ensures Quiet(MediumPose) && Quiet(NearPose) && Quiet(Teardown)
    ensures Quiet(PatFirstPose) && Quiet(PatSecondPose) && Quiet(ThankPatPose)
  {
  }

  /** A quiet sequence followed by one command. */
  lemma PromptsSnoc(a: seq<Command>, c: Command)
    requires Quiet(a)
    ensures Prompts(a + [c]) == if IsPrompt(c) then 1 else 0
  {
    assert (a + [c])[..|a + [c]| - 1] == a;
    QuietNoPrompts(a);
  }

  /** Entering a zone never requests a pat. */
  lemma ZoneEntryQuiet(s: State, z: Option<Zone>, now: real)
    ensures Quiet(ZoneEntry(s, z, now).out)
  {
    PosesQuiet();
    var o := ZoneEntry(s, z, now).out;
    if z != s.zone && z == Some(Far) {
      QuietAppend(FarFirstPose, [Speech(ComeCloser)]);
    } else if z != s.zone && z == Some(Medium) {
      var t := s.(zone := z, farFirstTime := None, farSecondPromptDone := false);
      var said: seq<Command> := if now - t.lastMediumTime >= CooldownMedium then [Speech(HaveASeat)] else [];
      QuietAppend(said, MediumPose);
    } else if z != s.zone && z == Some(Near) {
      var t := s.(zone := z, farFirstTime := None, farSecondPromptDone := false);
      var said: seq<Command> := if now - t.lastNearThankTime >= CooldownNearThank then [Speech(ThankForSitting)] else [];
      QuietAppend(said, NearPose);
    }
  }

  /** The second far invitation never requests a pat. */
  lemma FarFollowUpQuiet(s: State, now: real)
    ensures Quiet(FarFollowUp(s, now).out)
  {
    PosesQuiet();
    QuietAppend(FarSecondPose, [Speech(ComeOnCloser)]);
  }

  /** The escalation makes at most one request, and exactly one when either is due. */
  lemma PatEscalationPrompts(s: State, now: real)
    ensures Prompts(PatEscalation(s, now).out) == if FirstPatDue(s, now) || SecondPatDue(s, now) then 1 else 0
  {
    PosesQuiet();
    if FirstPatDue(s, now) {
      PromptsSnoc(PatFirstPose, Speech(PatRequest));
    } else if SecondPatDue(s, now) {
      PromptsSnoc(PatSecondPose, Speech(PatPlease));
    }
  }

  /** Requests still available in the current NEAR visit (none outside NEAR). */
  function Budget(s: State): int
  {
    if s.zone == Some(Near) then 2 - (if s.askedForPat then 1 else 0) - (if s.secondPatPromptDone then 1 else 0)
    else 0
  }

  predicate EnteredNear(s: State, t: State)
  {
    s.zone != Some(Near) && t.zone == Some(Near)
  }

  /** One distance reading: its requests are paid from the current budget, and only a fresh
      entry into NEAR brings a new budget of two. */
  lemma {:induction false} TofBudget(s: State, sensor: string, dist: Option<real>, now: real)
    requires Inv(s)
    ensures var r := Tof(s, sensor, dist, now);
      Prompts(r.out) + Budget(r.state) <= Budget(s) + (if EnteredNear(s, r.state) then 2 else 0)
  {
    var r := Tof(s, sensor, dist, now);
    PosesQuiet();
    if !TofLive(s, sensor, now) {
      QuietNoPrompts(r.out);
    } else {
      var s1 := s.(neutralMode := false);
      var z := Classify(dist, s1.zone);
      var e := ZoneEntry(s1, z, now);
      var f := FarFollowUp(e.state, now);
      var p := PatEscalation(f.state, now);
      ZoneEntryQuiet(s1, z, now);
      FarFollowUpQuiet(e.state, now);
      QuietNoPrompts(e.out);
      QuietNoPrompts(f.out);
      PatEscalationPrompts(f.state, now);
      PromptsAppend(e.out, f.out);
      PromptsAppend(e.out + f.out, p.out);
      assert r.out == e.out + f.out + p.out;
      if z == s.zone {
        assert e.state == s1;
      } else if z == Some(Near) {
        assert f.state == e.state;
        assert !FirstPatDue(f.state, now) && !SecondPatDue(f.state, now);
      } else {
        assert z.Some?;
        assert p.state.zone != Some(Near);
      }
    }
  }

  lemma HandleBudget(s: State, ev: Event)
    requires Inv(s)
    ensures var h := Handle(s, ev);
      Prompts(h.out) + Budget(h.state) <= Budget(s) + (if EnteredNear(s, h.state) then 2 else 0)
  {
    match ev
    case Distance(sensor, dist, now) => TofBudget(s, sensor, dist, now);
    case FaceSeen(now) =>
    case Touched(sensor, contacted) =>
      PosesQuiet();
      QuietAppend(ThankPatPose, [Speech(ThankForPat)]);
      QuietAppend(ThankPatPose + [Speech(ThankForPat)], Teardown);
      QuietNoPrompts(Handle(s, ev).out);
  }

  /** Number of times a series of events makes the subject enter NEAR. */
  function NearEntries(s: State, events: seq<Event>): nat
    decreases |events|
  {
    if events == [] then 0
    else
      var t := Handle(s, events[0]).state;
      (if EnteredNear(s, t) then 1 else 0) + NearEntries(t, events[1..])
  }

  /** At most two head-pat requests per entry into NEAR: over any series of events the
      requests made, plus what is left of the last visit's budget, never exceed the
      starting budget plus two per entry. */
  lemma {:induction false} RunBudget(s: State, events: seq<Event>)
    requires Inv(s)
    ensures var r := Run(s, events);
      Prompts(r.out) + Budget(r.state) <= Budget(s) + 2 * NearEntries(s, events)
    decreases |events|
  {
    if events != [] {
      var h := Handle(s, events[0]);
      HandleBudget(s, events[0]);
      HandleInv(s, events[0]);
      RunBudget(h.state, events[1..]);
      PromptsAppend(h.out, Run(h.state, events[1..]).out);
    }
  }

  /** Requests per NEAR visit, stated from the start: the number of head-pat requests the
      skill ever makes is at most twice the number of times the subject entered NEAR. */
  lemma AtMostTwoRequestsPerNearEntry(events: seq<Event>)
    ensures Prompts(Run(Start().state, events).out) <= 2 * NearEntries(Start().state, events)
  {
    StartInv();
    RunInv(Start().state, events);
    RunBudget(Start().state, events);
  }

  /** A first request at a reading means the subject was already NEAR, not yet asked, and
      had been NEAR for more than 4 s; the request is stamped with the reading's time. */
  lemma {:induction false} FirstRequestTiming(s: State, sensor: string, dist: Option<real>, now: real)
    requires Inv(s)
    ensures var r := Tof(s, sensor, dist, now).state;
      r.askedForPat && !s.askedForPat ==>
        && s.zone == Some(Near) && r.zone == Some(Near)
        && now - s.nearSince.value > NearPatFirstDelay && r.patPromptTime == Some(now)
  {
    if TofLive(s, sensor, now) {
      var s1 := s.(neutralMode := false);
      var z := Classify(dist, s1.zone);
      var e := ZoneEntry(s1, z, now);
      var f := FarFollowUp(e.state, now);
      if z != s.zone {
        assert z.Some?;
      } else {
        assert e.state == s1;
      }
    }
  }

  /** A second request at a reading means a first one was made more than 6 s earlier in the
      same NEAR visit and no second one yet. */
  lemma {:induction false} SecondRequestTiming(s: State, sensor: string, dist: Option<real>, now: real)
    requires Inv(s)
    ensures var r := Tof(s, sensor, dist, now).state;
      r.secondPatPromptDone && !s.secondPatPromptDone ==>
        && s.zone == Some(Near) && s.askedForPat
        && now - s.patPromptTime.value > NearPatSecondDelay && r.patPromptTime == Some(now)
  {
    if TofLive(s, sensor, now) {
      var s1 := s.(neutralMode := false);
      var z := Classify(dist, s1.zone);
      var e := ZoneEntry(s1, z, now);
      if z != s.zone {
        assert z.Some?;
      } else {
        assert e.state == s1;
      }
    }
  }

  // The escalation end to end: a face at t=100 s and the subject sitting down at 0.5 m;
  // the first request at t=105 s (more than 4 s NEAR), the second at t=112 s (more than
  // 6 s after the first, with the face refreshed at t=110 s), then the head pat.

  const SeenAt100: State := Start().state.(lastFaceTime := Some(100.0))
  const NearAt100: State := SeenAt100.(zone := Some(Near), nearSince := Some(100.0),
                                       neutralMode := false, lastNearThankTime := 100.0)
  const AskedAt105: State := NearAt100.(askedForPat := true, patPromptTime := Some(105.0))
  const SeenAt110: State := AskedAt105.(lastFaceTime := Some(110.0))
  const AskedAgainAt112: State := SeenAt110.(secondPatPromptDone := true, patPromptTime := Some(112.0))
  const Patted: State := AskedAgainAt112.(patReceived := true, skillDone := true)

  lemma ScenarioSitDown()
    ensures Tof(SeenAt100, CenterSensor, Some(0.5), 100.0) == Step(NearAt100, [Speech(ThankForSitting)] + NearPose)
  {
    var s1 := SeenAt100.(neutralMode := false);
    assert Classify(Some(0.5), s1.zone) == Some(Near);
    assert ZoneEntry(s1, Some(Near), 100.0) == Step(NearAt100, [Speech(ThankForSitting)] + NearPose);
  }

  lemma ScenarioFirstRequest()
    ensures Tof(NearAt100, CenterSensor, Some(0.5), 105.0) == Step(AskedAt105, PatFirstPose + [Speech(PatRequest)])
  {
    assert Classify(Some(0.5), Some(Near)) == Some(Near);
  }

  lemma ScenarioSecondRequest()
    ensures Tof(SeenAt110, CenterSensor, Some(0.5), 112.0) == Step(AskedAgainAt112, PatSecondPose + [Speech(PatPlease)])
  {
    assert Classify(Some(0.5), Some(Near)) == Some(Near);
  }

  lemma ScenarioPat()
    ensures Touch(AskedAgainAt112, "HeadFront", true) == Step(Patted, ThankPatPose + [Speech(ThankForPat)] + Teardown)
  {
    assert "HeadFront" == HeadSensors[0];
  }

  /** Delivering the first event, then the rest. */
  lemma RunCons(s: State, e: Event, rest: seq<Event>)
    ensures Run(s, [e] + rest) == Step(Run(Handle(s, e).state, rest).state, Handle(s, e).out + Run(Handle(s, e).state, rest).out)
  {
    assert ([e] + rest)[0] == e && ([e] + rest)[1..] == rest;
  }

  /** The part of the scenario after the subject has sat down. */
  lemma ScenarioAfterSitDown()
    ensures Run(NearAt100,
      [Distance(CenterSensor, Some(0.5), 105.0), FaceSeen(110.0),
       Distance(CenterSensor, Some(0.5), 112.0), Touched("HeadFront", true)])
      == Step(Patted, PatFirstPose + [Speech(PatRequest)]
                + (PatSecondPose + [Speech(PatPlease)]
                + (ThankPatPose + [Speech(ThankForPat)] + Teardown)))
  {
    var e3, e4 := Distance(CenterSensor, Some(0.5), 105.0), FaceSeen(110.0);
    var e5, e6 := Distance(CenterSensor, Some(0.5), 112.0), Touched("HeadFront", true);
    ScenarioFirstRequest();
    ScenarioSecondRequest();
    ScenarioPat();
    RunCons(AskedAgainAt112, e6, []);
    RunCons(SeenAt110, e5, [e6]);
    RunCons(AskedAt105, e4, [e5, e6]);
    RunCons(NearAt100, e3, [e4, e5, e6]);
    assert [e3] + [e4, e5, e6] == [e3, e4, e5, e6];
  }

  lemma EscalationScenario()
    ensures var r := Run(Start().state,
      [FaceSeen(100.0), Distance(CenterSensor, Some(0.5), 100.0),
       Distance(CenterSensor, Some(0.5), 105.0), FaceSeen(110.0),
       Distance(CenterSensor, Some(0.5), 112.0), Touched("HeadFront", true)]);
      && r.state == Patted && r.state.skillDone
      && r.out == [Speech(ThankForSitting)] + NearPose
                + (PatFirstPose + [Speech(PatRequest)]
                + (PatSecondPose + [Speech(PatPlease)]
                + (ThankPatPose + [Speech(ThankForPat)] + Teardown)))
  {
    var e1, e2 := FaceSeen(100.0), Distance(CenterSensor, Some(0.5), 100.0);
    var rest := [Distance(CenterSensor, Some(0.5), 105.0), FaceSeen(110.0),
       Distance(CenterSensor, Some(0.5), 112.0), Touched("HeadFront", true)];
    ScenarioSitDown();
    ScenarioAfterSitDown();
    RunCons(SeenAt100, e2, rest);
    RunCons(Start().state, e1, [e2] + rest);
    assert [e1] + ([e2] + rest) == [e1, e2] + rest;
  }

  /** The scenario makes exactly the two requests the bound allows for its one NEAR visit. */
  lemma EscalationScenarioTwoRequests()
    ensures Prompts([Speech(ThankForSitting)] + NearPose
                + (PatFirstPose + [Speech(PatRequest)]
                + (PatSecondPose + [Speech(PatPlease)]
                + (ThankPatPose + [Speech(ThankForPat)] + Teardown)))) == 2
  {
    PosesQuiet();
    var tail := ThankPatPose + [Speech(ThankForPat)] + Teardown;
    QuietAppend(ThankPatPose, [Speech(ThankForPat)]);
    QuietAppend(ThankPatPose + [Speech(ThankForPat)], Teardown);
    QuietAppend([Speech(ThankForSitting)], NearPose);
    QuietNoPrompts([Speech(ThankForSitting)] + NearPose);
    QuietNoPrompts(tail);
    PromptsSnoc(PatFirstPose, Speech(PatRequest));
    PromptsSnoc(PatSecondPose, Speech(PatPlease));
    PromptsAppend(PatSecondPose + [Speech(PatPlease)], tail);
    PromptsAppend(PatFirstPose + [Speech(PatRequest)], PatSecondPose + [Speech(PatPlease)] + tail);
    PromptsAppend([Speech(ThankForSitting)] + NearPose, PatFirstPose + [Speech(PatRequest)] + (PatSecondPose + [Speech(PatPlease)] + tail));
  }

  // ---------------------------------------------------------------------------
  // Cooldowns and reset
  // ---------------------------------------------------------------------------

  /** Two MEDIUM entries less than 6 s apart: one greeting, two medium poses. */
  lemma MediumCooldownSuppressesSpeech(s: State, t1: real, t2: real)
    requires t1 - s.lastMediumTime >= CooldownMedium && t1 <= t2 < t1 + CooldownMedium
    ensures var a := BehaviorMedium(s, t1);
      var b := BehaviorMedium(a.state, t2);
      a.out == [Speech(HaveASeat)] + MediumPose && b.out == MediumPose
  {
  }

  /** Resetting twice leaves the same state and sends the same idle pose as resetting once. */
  lemma GoNeutralIdempotent(s: State)
    ensures GoNeutral(GoNeutral(s).state).state == GoNeutral(s).state
    ensures GoNeutral(GoNeutral(s).state).out == GoNeutral(s).out
  {
  }
}
