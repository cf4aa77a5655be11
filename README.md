# Proximity interaction and LED memory game, modelled in Dafny

This project models two parts of a social-robot program.

- **The proximity skill** (`test.py`). The robot reads a time-of-flight distance and
  classifies the person in front of it into zones (FAR, MEDIUM, NEAR), with hysteresis. Each
  time the zone changes it runs that zone's behaviour: a face, an LED colour, an arm posture,
  and a line of speech that is subject to a cooldown. Distance readings count only while a face
  was seen in the last 8 s. While NEAR, the robot asks for a head pat after 4 s, and asks again
  6 s after the first request. A touch on a head sensor while NEAR thanks the person, turns face
  recognition off, drops the three event subscriptions and finishes the skill for good.
- **The LED memory game** (`memorySupportive.py`). A colour-name lookup with a white fallback;
  flashing a sequence of colours with white between them; and one round of play: a difficulty
  and a 1-based round number are validated against a fixed table, then that round's
  sequence is announced and flashed.

The robot is a fire-and-forget command sink. `Actuators.Robot` records every call made on it, in
order, in its `trace`. Speech is recorded as which utterance was spoken (`Line`), not its text.

Layout:

- `actuators.dfy`: commands and the robot.
- `zones.dfy`: the hysteresis classifier `get_zone_with_hysteresis` and its band lemmas.
- `engagement.dfy`: the skill's global state as a value. For every function of `test.py` that
  changes the state there is a function from the state before the call to the next state and the
  commands sent (a `Step`).
  `Handle` and `Run` deliver events one at a time.
- `engagement_proofs.dfy`: the invariant, preserved by every event, and properties of whole
  event series. These cover the absorbing terminal latch, the face gate, at most two head-pat
  requests per NEAR entry, the request timing, the cooldowns, and an end-to-end escalation
  scenario.
- `proximity_skill.dfy`: the class `ProximitySkill`. Its fields are the program's globals, and its
  methods update them in place and call the robot, like the source does. Each method is proved to
  leave exactly the state, and send exactly the commands, that its function in `engagement.dfy` gives.
- `memory_game.dfy`: the colour map, `set_led`, `flash_sequence` (a loop), the table of sequences and
  the class `SupportiveMemoryGame` with `doRound`.

Times are seconds as `real`, and distances are metres as `real`. The clock and the sensor payloads
are parameters: `now`, the sensor position, the distance (absent as `None`), and the contact flag.

## Model

| member | source | states |
|---|---|---|
| Zones.Classify | test.py:81-128 | An absent reading keeps the current zone; any reading gives some zone. With no zone yet: above 1.5 gives FAR, (0.7, 1.5] MEDIUM, otherwise NEAR. From NEAR: stay iff at most 1.0, else FAR above 1.5, else MEDIUM. From MEDIUM: NEAR below 0.6, FAR above 1.7, else stay. From FAR: stay iff at least 1.3, else NEAR below 0.7, else MEDIUM. Each is stated as a biconditional. |
| Zones.StaysExactlyInBand | test.py:101-126 | A subject stays in zone z exactly when the reading lies in z's stay band (NEAR ≤ 1.0, MEDIUM [0.6, 1.7], FAR ≥ 1.3). |
| Zones.EnterBandInsideStayBand | test.py:93-126 | Every first-classification band lies inside the stay band of the same zone, and each stay band is strictly wider on every side that borders another zone (hysteresis). |
| Zones.ClassifyIdempotent | test.py:81-128 | Classifying the same reading a second time does not change the zone. |
| Zones.StableInsideStayBand | test.py:101-126 | Any series of readings that are absent or inside the stay band leaves the zone unchanged. |
| Zones.LeavesOutsideStayBand | test.py:101-126 | One reading outside the stay band leaves the zone. |
| Engagement.GoNeutral | test.py:52-74 | Sends the idle pose (default face, green LED, head level, arms down). Clears zone, far and pat progress and sets neutral mode. Keeps face time, cooldown stamps and the latch. |
| Engagement.Start | test.py:26-76 | The state at load: neutral, not finished, no face seen; the idle pose was sent. |
| Engagement.BehaviorFarFirst | test.py:133-146 | Inside its 6 s cooldown it changes nothing and sends nothing. Otherwise it stamps the time, leaves neutral mode and sends the far pose followed by "come closer". |
| Engagement.BehaviorFarSecond | test.py:148-160 | Inside its 10 s cooldown it does nothing. Otherwise it stamps the time and sends the second far pose and "come on, come closer". |
| Engagement.BehaviorMedium | test.py:162-186 | Speaks (and stamps) only when at least 6 s have passed, but always sends the medium pose. It always leaves neutral mode, clears `nearSince` and the pat progress, and changes nothing else. |
| Engagement.BehaviorNear | test.py:188-210 | Like medium with its own stamp and pose; sets `nearSince` to now. |
| Engagement.AskForPatFirst | test.py:215-224 | Sends the first-request pose and the request, and records the request and its time. |
| Engagement.AskForPatSecond | test.py:226-235 | Sends the second-request pose and the plea, and records it and restamps the prompt time. |
| Engagement.BehaviorPatThankYou | test.py:237-262 | Sends the thank-you pose and speech, then face recognition off and the three unsubscriptions in order. Sets `patReceived` and `skillDone`. |
| Engagement.ZoneEntry | test.py:303-320 | The same zone again does nothing. A new zone is recorded and keeps the latch and the face time. FAR entry stamps `farFirstTime`, keeps the pat progress and sends the far pose and "come closer" unless its 6 s cooldown holds, moving `lastFarFirstTime` only when it speaks. MEDIUM and NEAR entry clear far and pat progress (NEAR stamps `nearSince`) and always send their zone's pose, preceded by their greeting when their 6 s cooldown has passed, which also moves that zone's stamp. Entering no zone sends nothing, and no entry moves another zone's stamp. |
| Engagement.FarFollowUp | test.py:324-328 | Acts only when still FAR, not yet prompted and more than 5 s after FAR was entered. It then runs the second invitation (which may be silenced by its cooldown) and always marks the prompt done. It never changes the zone, neutral mode, the face time, the latch or the pat progress. |
| Engagement.PatEscalation | test.py:330-336 | The first request happens exactly when NEAR, not patted, not asked and more than 4 s after `nearSince`. The second happens exactly when asked, not yet re-asked and more than 6 s after the first. Otherwise nothing happens. |
| Engagement.React | test.py:298-336 | The zone becomes the classification of the reading. A zone newly entered gets its entry stamps, and the same zone keeps them. The latch and the face time are kept. |
| Engagement.Tof | test.py:269-336 | The latch, a non-Center sensor and a never-seen face change nothing and send nothing. A stale face resets to neutral once and is then silent. Otherwise neutral mode is left and the zone becomes the classification, with entry stamps as in `React`. |
| Engagement.Face | test.py:341-349 | Records the face time unless the skill is finished. |
| Engagement.Touch | test.py:354-367 | Finishes the skill iff the touch is contacted, on a head sensor, while NEAR, before any pat. That touch runs the thank-you; any other changes nothing and sends nothing. |
| EngagementProofs.StartInv | test.py:26-76 | The start state satisfies the invariant. |
| EngagementProofs.ZoneEntryInv | test.py:303-320 | A zone change of a running skill keeps the invariant. |
| EngagementProofs.FarFollowUpInv | test.py:324-328 | The far follow-up keeps the invariant. |
| EngagementProofs.PatEscalationInv | test.py:330-336 | The head-pat escalation keeps the invariant. |
| EngagementProofs.TofInv | test.py:269-336 | A distance reading keeps the invariant. The invariant says: a pat is received iff the skill is finished, and only while NEAR; pat progress only follows a request made while NEAR; `farFirstTime` is set iff FAR. |
| EngagementProofs.FaceInv | test.py:341-349 | A face event keeps the invariant. |
| EngagementProofs.TouchInv | test.py:354-367 | A touch keeps the invariant. |
| EngagementProofs.HandleInv | test.py:269-367 | Any one event keeps the invariant. |
| EngagementProofs.RunInv | test.py:269-367 | Any series of events keeps the invariant. |
| EngagementProofs.ReachableInv | test.py:26-367 | Every state reachable from the start satisfies the invariant. |
| EngagementProofs.RunAbsorbing | test.py:279-280 | Once finished, any series of events changes nothing and sends nothing (all three handlers return first thing). |
| EngagementProofs.PatEndsSkill | test.py:362-367 | After an accepted head pat the skill is finished and no later event has any effect. |
| EngagementProofs.NoFaceNoEffect | test.py:291-292 | With no face ever seen and the zone not NEAR, any series without face events changes nothing and sends nothing. |
| EngagementProofs.NeverSeenFace | test.py:291-292 | From the start, a series without face events leaves the start state and sends nothing. |
| EngagementProofs.AbsentReadingLeavesNoZoneOutOfNeutral | test.py:298-301 | A Center reading with no distance, with a recent face, leaves the zone unset but clears neutral mode (see below). |
| EngagementProofs.ZoneEntryQuiet | test.py:303-320 | Entering a zone never asks for a pat. |
| EngagementProofs.FarFollowUpQuiet | test.py:324-328 | The far follow-up never asks for a pat. |
| EngagementProofs.PatEscalationPrompts | test.py:330-336 | The escalation makes one request exactly when one is due, otherwise none. |
| EngagementProofs.TofBudget | test.py:269-336 | A reading's requests are paid from the visit's budget of two, reduced by each request made. Only a fresh entry into NEAR grants a new budget. |
| EngagementProofs.HandleBudget | test.py:269-367 | The same for any one event. |
| EngagementProofs.RunBudget | test.py:269-367 | Over any series, the number of requests plus the remaining budget is at most the starting budget plus twice the number of NEAR entries. |
| EngagementProofs.AtMostTwoRequestsPerNearEntry | test.py:331-336 | From the start, at most two head-pat requests per entry into NEAR. |
| EngagementProofs.FirstRequestTiming | test.py:331-333 | A first request at a reading implies the subject was already NEAR, not asked and NEAR for more than 4 s; the request is stamped with that time. |
| EngagementProofs.SecondRequestTiming | test.py:334-336 | A second request implies the subject is NEAR and was already asked, with the previous request more than 6 s earlier; it restamps the prompt time. |
| EngagementProofs.ScenarioSitDown | test.py:317-320 | At t=100, with a face, a reading of 0.5 m enters NEAR and says thank you. |
| EngagementProofs.ScenarioFirstRequest | test.py:331-333 | Five seconds later the first request is made. |
| EngagementProofs.ScenarioSecondRequest | test.py:334-336 | Seven seconds after that, with the face refreshed, the second request is made. |
| EngagementProofs.ScenarioPat | test.py:362-367 | A HeadFront touch then finishes the skill. |
| EngagementProofs.ScenarioAfterSitDown | test.py:269-367 | Those three steps in a row. |
| EngagementProofs.EscalationScenario | test.py:269-367 | The whole series from the start: the exact commands sent and the finished final state. |
| EngagementProofs.EscalationScenarioTwoRequests | test.py:331-336 | That series makes exactly two requests. |
| EngagementProofs.MediumCooldownSuppressesSpeech | test.py:167-186 | Two MEDIUM entries less than 6 s apart give one greeting but two medium poses. |
| EngagementProofs.GoNeutralIdempotent | test.py:52-74 | Resetting twice gives the same state and the same commands as resetting once. |
| ProximitySkill.ProximitySkill.constructor | test.py:26-76 | The globals as declared, then the reset run at load: the start state and the idle pose. |
| ProximitySkill.ProximitySkill.GoNeutral | test.py:52-74 | Updates the fields and the robot exactly as `Engagement.GoNeutral`. |
| ProximitySkill.ProximitySkill.BehaviorFarFirst | test.py:133-146 | Exactly as `Engagement.BehaviorFarFirst`, early return included. |
| ProximitySkill.ProximitySkill.BehaviorFarSecond | test.py:148-160 | Exactly as `Engagement.BehaviorFarSecond`. |
| ProximitySkill.ProximitySkill.BehaviorMedium | test.py:162-186 | Exactly as `Engagement.BehaviorMedium`. |
| ProximitySkill.ProximitySkill.BehaviorNear | test.py:188-210 | Exactly as `Engagement.BehaviorNear`. |
| ProximitySkill.ProximitySkill.AskForPatFirst | test.py:215-224 | Exactly as `Engagement.AskForPatFirst`. |
| ProximitySkill.ProximitySkill.AskForPatSecond | test.py:226-235 | Exactly as `Engagement.AskForPatSecond`. |
| ProximitySkill.ProximitySkill.BehaviorPatThankYou | test.py:237-262 | Exactly as `Engagement.BehaviorPatThankYou`; the unsubscription loop sends one command per subscription, in order. |
| ProximitySkill.ProximitySkill.EnterFar | test.py:307-310 | The FAR branch of the zone change, as `Engagement.ZoneEntry`. |
| ProximitySkill.ProximitySkill.EnterMedium | test.py:312-315 | The MEDIUM branch, as `Engagement.ZoneEntry`. |
| ProximitySkill.ProximitySkill.EnterNear | test.py:317-320 | The NEAR branch, as `Engagement.ZoneEntry`. |
| ProximitySkill.ProximitySkill.EnterZone | test.py:303-320 | The zone-change dispatch, as `Engagement.ZoneEntry`. |
| ProximitySkill.ProximitySkill.FarFollowUp | test.py:324-328 | As `Engagement.FarFollowUp`. |
| ProximitySkill.ProximitySkill.PatEscalation | test.py:330-336 | As `Engagement.PatEscalation`. |
| ProximitySkill.ProximitySkill.React | test.py:301-336 | Classification, dispatch, far follow-up and escalation in order, as `Engagement.React`. |
| ProximitySkill.ProximitySkill.TofCallback | test.py:269-336 | Exactly as `Engagement.Tof`. The invariant is kept, and a finished skill changes no field and sends nothing. |
| ProximitySkill.ProximitySkill.FaceCallback | test.py:341-349 | Exactly as `Engagement.Face`; keeps the invariant. |
| ProximitySkill.ProximitySkill.TouchCallback | test.py:354-367 | Exactly as `Engagement.Touch`; keeps the invariant. |
| MemoryGame.LedFor | memorySupportive.py:14-24 | The colour-map entry of a known name, white for any other name; always one of the named colours. |
| MemoryGame.SetLed | memorySupportive.py:23-25 | Sends exactly one LED command, with the colour `LedFor` gives. |
| MemoryGame.FlashTrace | memorySupportive.py:28-37 | n colours give exactly 2n commands. |
| MemoryGame.FlashTraceAt | memorySupportive.py:33-37 | Command 2i is the i-th colour and command 2i+1 is white. |
| MemoryGame.FlashTraceAppend | memorySupportive.py:33-37 | Flashing two sequences one after another is flashing their concatenation. |
| MemoryGame.FlashSequence | memorySupportive.py:28-37 | The loop appends exactly `FlashTrace` of the sequence to the robot's trace. |
| MemoryGame.RoundTrace | memorySupportive.py:98-122 | Always one utterance first. An unknown or empty difficulty gives that error alone, and a round out of range gives the other error alone: no LED command either way. A valid round is announced and then flashes exactly its table sequence (1-based round). Valid iff more than one command. |
| MemoryGame.SupportiveMemoryGame.constructor | memorySupportive.py:93-94 | A game with a fresh robot that has received no command. |
| MemoryGame.SupportiveMemoryGame.DoRound | memorySupportive.py:98-122 | The validation and early returns send exactly `RoundTrace`. |
| MemoryGame.TableShape | memorySupportive.py:44-85 | Difficulties are exactly 1 to 5, each with six rounds. |
| MemoryGame.TableColoursKnown | memorySupportive.py:14-85 | Every colour in the table is a key of the colour map, so the white fallback is never taken for table data. |
| MemoryGame.DifficultyOneGrowsByOne | memorySupportive.py:45-52 | In difficulty 1, round k has k colours and extends round k-1 by one colour. |
| MemoryGame.ValidRoundShowsTableColours | memorySupportive.py:113-122 | In a valid round, LED command 2i+1 (after the announcement) is the map colour of the i-th table colour and the next is white. |

## Behaviour worth noting

- The far behaviours return first thing inside their cooldown (test.py:136-137, 151-152). They
  skip the pose, the LED and the neutral-mode update along with the speech. Only the medium and
  near behaviours always update the pose.
- When no face was ever seen, a distance reading returns without resetting to neutral
  (test.py:291-292). Only a stale face resets.
- Entering FAR does not clear the head-pat progress (test.py:307-310). Only MEDIUM and NEAR
  entry do, through their behaviours, so a subject who goes from NEAR straight to FAR keeps it.
- An unset zone does not imply neutral mode. A Center reading with no distance value, while a
  face is recent, clears neutral mode (test.py:298) and leaves an unset zone unset
  (test.py:89-90). `EngagementProofs.AbsentReadingLeavesNoZoneOutOfNeutral` shows it.

## Left out

- Robot construction, the robot's address, event registration, starting face recognition and
  `keep_alive` (test.py:9, 24, 372-397; memorySupportive.py:5). This is the network and callback
  plumbing; the robot is a command trace.
- Parsing the event payload dictionaries. The callbacks take the sensor position, the distance
  and the contact flag as parameters, so a payload missing a key is not modelled.
- The clock. `time.time()` becomes the `now` parameter. The stamps in `ask_for_pat_first` and
  `ask_for_pat_second` use the `now` of the reading that triggered them, not a second clock read.
- Pauses: `time.sleep`, `TALK_DELAY` and the `on_time`/`white_time` parameters of
  `flash_sequence`. They are timing only.
- `print` logging, the wording of every utterance, and the second argument of `speak`. Speech
  is kept as which line was spoken.
- The face label read in `face_callback` (test.py:349). It only feeds a `print`.
- The exception handling around the teardown (test.py:251-260). Every teardown call is taken as
  made, which is what the state sees either way.
- Concurrent callback delivery and the sensors' upstream debounce. Events are handled one at a
  time, in order.
- Floating point. Times and distances are mathematical reals.
- The fallthrough `return current_zone` after the zone tests (test.py:128). It is unreachable,
  because every zone is handled first.
- The dialogue methods of `SupportiveMemoryGame` (memorySupportive.py:126-181), the interactive
  wizard (memorySupportive.py:188-272), the scripted pilot monologues and the HTTP helpers. These
  are fixed utterances or console and network I/O, with no state or logic.
- `doRound`'s difficulty is an integer, while the table lookup accepts any key. Other key
  types are not modelled.
