/** The robot as seen by the interaction code: a fire-and-forget command sink.
    Every call made on the robot is recorded, in order, in the `trace` of a
    `Robot` object; nothing ever flows back from the robot into the caller. */
module Actuators {

  datatype Option<T> = None | Some(value: T)

  /** An LED colour as the red, green and blue intensities passed to `change_led`. */
  datatype Rgb = Rgb(r: int, g: int, b: int)

  /** Which arm a `move_arm` call addresses ("left" or "right"). */
  datatype Side = Left | Right

  /** What the robot was asked to say. The wording is an opaque payload; the model
      keeps only which utterance it was. */
  datatype Line =
    // proximity skill
    | ComeCloser          // far, first invitation
    | ComeOnCloser        // far, second invitation
    | HaveASeat           // medium
    | ThankForSitting     // near
    | PatRequest          // first head-pat request
    | PatPlease           // second head-pat request
    | ThankForPat         // head pat received
    // memory game
    | NoSuchDifficulty
    | NoSuchRound
    | RoundIntro(round: int, difficulty: int)

  /** The display images the skills show (`e_<Name>.jpg`). */
  datatype Picture = DefaultContent | Amazement | Admiration | ContentRight | Joy | Joy2 | JoyGoofy2

  /** The event subscriptions the proximity skill registers ("distance_event", "face_event",
      "touch_event"). */
  datatype Subscription = DistanceEvent | FaceEvent | TouchEvent

  /** One call on the robot. */
  datatype Command =
    | Image(picture: Picture)                         // display_image
    | Led(color: Rgb)                                 // change_led
    | Head(pitch: int, roll: int, yaw: int)           // move_head
    | Arm(side: Side, position: int, velocity: int)   // move_arm
    | Speech(line: Line)                              // speak
    | FaceRecognitionOff                              // stop_face_recognition
    | EventUnregistered(event: Subscription)          // unregister_event

  lemma AppendAssoc(a: seq<Command>, b: seq<Command>, c: seq<Command>)
    ensures a + b + c == a + (b + c)
  {
  }

  /** The robot: each method appends exactly its own command to the trace. */
  class Robot {
    var trace: seq<Command>

    constructor()
      ensures trace == []
    {
      trace := [];
    }

    method DisplayImage(picture: Picture)
      modifies this
      ensures trace == old(trace) + [Image(picture)]
    {
      trace := trace + [Image(picture)];
    }

    method ChangeLed(r: int, g: int, b: int)
      modifies this
      ensures trace == old(trace) + [Led(Rgb(r, g, b))]
    {
      trace := trace + [Led(Rgb(r, g, b))];
    }

    method MoveHead(pitch: int, roll: int, yaw: int)
      modifies this
      ensures trace == old(trace) + [Head(pitch, roll, yaw)]
    {
      trace := trace + [Head(pitch, roll, yaw)];
    }

    method MoveArm(side: Side, position: int, velocity: int)
      modifies this
      ensures trace == old(trace) + [Arm(side, position, velocity)]
    {
      trace := trace + [Arm(side, position, velocity)];
    }

    method Speak(line: Line)
      modifies this
      ensures trace == old(trace) + [Speech(line)]
    {
      trace := trace + [Speech(line)];
    }

    method StopFaceRecognition()
      modifies this
      ensures trace == old(trace) + [FaceRecognitionOff]
    {
      trace := trace + [FaceRecognitionOff];
    }

    method UnregisterEvent(event: Subscription)
      modifies this
      ensures trace == old(trace) + [EventUnregistered(event)]
    {
      trace := trace + [EventUnregistered(event)];
    }
  }
}
