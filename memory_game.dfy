/** The LED-sequence memory game: a colour lookup with a white fallback, flashing a
    sequence of colours with white between them, and playing one round of a fixed table
    of sequences. Pauses are left out; the robot is the command sink of `Actuators`. */
module MemoryGame {
  import opened Actuators

  const White: Rgb := Rgb(255, 255, 255)

  /** The named LED colours. */
  const ColorMap: map<string, Rgb> := map[
    "white" := White,
    "green" := Rgb(0, 255, 0),
    "blue" := Rgb(0, 0, 255),
    "red" := Rgb(255, 0, 0),
    "yellow" := Rgb(255, 255, 0),
    "purple" := Rgb(128, 0, 128)]

  /** The colour `set_led` sends for `name`: its entry in the colour map, white for any
      other name. Either way it is one of the named colours. */
  function LedFor(name: string): (c: Rgb)
    ensures name in ColorMap ==> c == ColorMap[name]
    ensures name !in ColorMap ==> c == ColorMap["white"]
    ensures c in ColorMap.Values
  {
    if name in ColorMap then ColorMap[name] else White
  }

  method SetLed(misty: Robot, name: string)
    modifies misty
    ensures misty.trace == old(misty.trace) + [Led(LedFor(name))]
  {
    var c := LedFor(name);
    misty.ChangeLed(c.r, c.g, c.b);
  }

  /** The commands `flash_sequence` sends: each colour, then white. */
  function FlashTrace(sequence: seq<string>): (r: seq<Command>)
    ensures |r| == 2 * |sequence|
    decreases |sequence|
  {
    if sequence == [] then []
    else FlashTrace(sequence[..|sequence| - 1]) + [Led(LedFor(sequence[|sequence| - 1])), Led(White)]
  }

  /** Command 2i is the i-th colour and command 2i+1 is white. */
  lemma {:induction false} FlashTraceAt(sequence: seq<string>, i: int)
    requires 0 <= i < |sequence|
    ensures FlashTrace(sequence)[2 * i] == Led(LedFor(sequence[i]))
    ensures FlashTrace(sequence)[2 * i + 1] == Led(White)
    decreases |sequence|
  {
    var init := sequence[..|sequence| - 1];
    if i < |sequence| - 1 {
      FlashTraceAt(init, i);
      assert init[i] == sequence[i];
    }
  }

  /** Flashing one sequence after another flashes their concatenation. */
  lemma {:induction false} FlashTraceAppend(a: seq<string>, b: seq<string>)
    ensures FlashTrace(a + b) == FlashTrace(a) + FlashTrace(b)
    decreases |b|
  {
    if b == [] {
      assert a + b == a;
    } else {
      var b' := b[..|b| - 1];
      assert (a + b)[..|a + b| - 1] == a + b';
      assert (a + b)[|a + b| - 1] == b[|b| - 1];
      FlashTraceAppend(a, b');
    }
  }

  /** `flash_sequence`: for each colour in order, that colour and then white. */
  method FlashSequence(misty: Robot, sequence: seq<string>)
    modifies misty
    ensures misty.trace == old(misty.trace) + FlashTrace(sequence)
  {
    for i := 0 to |sequence|
      invariant misty.trace == old(misty.trace) + FlashTrace(sequence[..i])
    {
      assert sequence[..i + 1][..i] == sequence[..i];
      SetLed(misty, sequence[i]);
      SetLed(misty, "white");
    }
    assert sequence[..|sequence|] == sequence;
  }

  // The rounds of each difficulty, round 1 first.
  const Difficulty1: seq<seq<string>> := [
    ["green"],
    ["green", "blue"],
    ["green", "blue", "blue"],
    ["green", "blue", "blue", "blue"],
    ["green", "blue", "blue", "blue", "green"],
    ["green", "blue", "blue", "blue", "green", "blue"]]

  const Difficulty2: seq<seq<string>> := [
    ["green", "blue"],
    ["green", "blue", "yellow"],
    ["green", "yellow", "blue", "yellow"],
    ["blue", "blue", "green", "yellow"],
    ["yellow", "green", "blue", "blue", "green"],
    ["yellow", "blue", "green", "yellow", "blue", "green"]]

  const Difficulty3: seq<seq<string>> := [
    ["red", "green"],
    ["red", "green", "blue"],
    ["red", "blue", "green", "yellow"],
    ["green", "yellow", "red", "blue"],
    ["blue", "red", "yellow", "green", "blue"],
    ["yellow", "blue", "red", "green", "yellow", "blue"]]

  const Difficulty4: seq<seq<string>> := [
    ["purple", "green"],
    ["purple", "green", "blue"],
    ["purple", "blue", "yellow", "green"],
    ["yellow", "purple", "green", "blue"],
    ["green", "purple", "blue", "yellow", "purple"],
    ["yellow", "green", "purple", "blue", "yellow", "green"]]

  const Difficulty5: seq<seq<string>> := [
    ["red", "blue", "green"],
    ["red", "blue", "green", "yellow"],
    ["yellow", "red", "blue", "green", "purple"],
    ["green", "purple", "yellow", "red", "blue"],
    ["purple", "yellow", "green", "blue", "red", "yellow"],
    ["blue", "green", "purple", "yellow", "red", "green"]]

  const DifficultySequences: map<int, seq<seq<string>>> :=
    map[1 := Difficulty1, 2 := Difficulty2, 3 := Difficulty3, 4 := Difficulty4, 5 := Difficulty5]

  /** `doRound` accepts a difficulty with at least one round and a 1-based round number within it. */
  predicate RoundValid(difficulty: int, roundNumber: int)
  {
    && difficulty in DifficultySequences && DifficultySequences[difficulty] != []
    && 1 <= roundNumber <= |DifficultySequences[difficulty]|
  }

  /** The commands `doRound` sends: always one utterance first; an unknown difficulty or a
      round out of range adds nothing to it (in particular no LED command), and a valid
      round is announced and then exactly its table sequence is flashed. */
  function RoundTrace(difficulty: int, roundNumber: int): (r: seq<Command>)
    ensures |r| >= 1 && r[0].Speech?
    ensures RoundValid(difficulty, roundNumber) <==> |r| > 1
    ensures (difficulty !in DifficultySequences || DifficultySequences[difficulty] == []) ==>
      r == [Speech(NoSuchDifficulty)]
    ensures difficulty in DifficultySequences && DifficultySequences[difficulty] != [] && !RoundValid(difficulty, roundNumber) ==>
      r == [Speech(NoSuchRound)]
    ensures RoundValid(difficulty, roundNumber) ==>
      |r| == 1 + 2 * |DifficultySequences[difficulty][roundNumber - 1]| &&
      r[0] == Speech(RoundIntro(roundNumber, difficulty)) &&
      r[1..] == FlashTrace(DifficultySequences[difficulty][roundNumber - 1])
  {
    if difficulty !in DifficultySequences || DifficultySequences[difficulty] == [] then
      [Speech(NoSuchDifficulty)]
    else if roundNumber - 1 < 0 || roundNumber - 1 >= |DifficultySequences[difficulty]| then
      [Speech(NoSuchRound)]
    else
      var sequence := DifficultySequences[difficulty][roundNumber - 1];
      assert sequence != [];
      [Speech(RoundIntro(roundNumber, difficulty))] + FlashTrace(sequence)
  }

  class SupportiveMemoryGame {
    const misty: Robot

    constructor()
      ensures fresh(misty) && misty.trace == []
    {
      misty := new Robot();
    }

    /** `doRound`: validates the difficulty, then the 1-based round, then announces and flashes
        the round's sequence. */
    method DoRound(difficulty: int, roundNumber: int)
      modifies misty
      ensures misty.trace == old(misty.trace) + RoundTrace(difficulty, roundNumber)
    {
      if difficulty !in DifficultySequences || DifficultySequences[difficulty] == [] {
        misty.Speak(NoSuchDifficulty);
        return;
      }
      var sequences := DifficultySequences[difficulty];
      var index := roundNumber - 1;
      if index < 0 || index >= |sequences| {
        misty.Speak(NoSuchRound);
        return;
      }
      var sequence := sequences[index];
      misty.Speak(RoundIntro(roundNumber, difficulty));
      FlashSequence(misty, sequence);
      AppendAssoc(old(misty.trace), [Speech(RoundIntro(roundNumber, difficulty))], FlashTrace(sequence));
    }
  }

  // ---------------------------------------------------------------------------
  // The table
  // ---------------------------------------------------------------------------

  /** Difficulties 1 to 5 exist, and each has six rounds. */
  lemma TableShape()
    ensures forall d :: d in DifficultySequences <==> 1 <= d <= 5
    ensures forall d :: d in DifficultySequences ==> |DifficultySequences[d]| == 6
  {
  }

  /** Every colour of every round is a key of the colour map. */
  predicate ColoursKnown(rounds: seq<seq<string>>)
  {
    forall k, j :: 0 <= k < |rounds| && 0 <= j < |rounds[k]| ==> rounds[k][j] in ColorMap
  }

  lemma ColoursKnown1() ensures ColoursKnown(Difficulty1) {}
  lemma ColoursKnown2() ensures ColoursKnown(Difficulty2) {}
  lemma ColoursKnown3() ensures ColoursKnown(Difficulty3) {}
  lemma ColoursKnown4() ensures ColoursKnown(Difficulty4) {}
  lemma ColoursKnown5() ensures ColoursKnown(Difficulty5) {}

  /** Every colour the table uses is named in the colour map, so the white fallback is never
      taken for table data. */
  lemma TableColoursKnown(d: int)
    requires d in DifficultySequences
    ensures ColoursKnown(DifficultySequences[d])
  {
    if d == 1 { ColoursKnown1(); }
    else if d == 2 { ColoursKnown2(); }
    else if d == 3 { ColoursKnown3(); }
    else if d == 4 { ColoursKnown4(); }
    else { ColoursKnown5(); }
  }

  /** In difficulty 1, round k (1-based) has k colours and extends round k-1 by one colour;
      stated with 0-based indexes. */
  lemma DifficultyOneGrowsByOne()
    ensures |DifficultySequences[1]| == 6
    ensures forall k :: 0 <= k < 6 ==> |DifficultySequences[1][k]| == k + 1
    ensures forall k :: 1 <= k < 6 ==> DifficultySequences[1][k][..k] == DifficultySequences[1][k - 1]
  {
  }

  /** A valid round announces itself and then shows, for its i-th colour, that colour's
      entry in the colour map followed by white. */
  lemma ValidRoundShowsTableColours(difficulty: int, roundNumber: int, i: int)
    requires RoundValid(difficulty, roundNumber)
    requires 0 <= i < |DifficultySequences[difficulty][roundNumber - 1]|
    ensures var r := RoundTrace(difficulty, roundNumber);
      var name := DifficultySequences[difficulty][roundNumber - 1][i];
      && |r| == 1 + 2 * |DifficultySequences[difficulty][roundNumber - 1]|
      && name in ColorMap && r[1 + 2 * i] == Led(ColorMap[name]) && r[2 + 2 * i] == Led(White)
  {
    var sequence := DifficultySequences[difficulty][roundNumber - 1];
    TableColoursKnown(difficulty);
    assert sequence[i] in ColorMap;
    FlashTraceAt(sequence, i);
    var r := RoundTrace(difficulty, roundNumber);
    assert r[1..][2 * i] == r[1 + 2 * i] && r[1..][2 * i + 1] == r[2 + 2 * i];
  }
}
