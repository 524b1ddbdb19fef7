/**
 * Decoders for LDP note tokens (pitch and duration strings) and the
 * duration arithmetic of notes and time signatures
 * (src/internal_model/lomse_internal_model.cpp, "global functions related to notes").
 *
 * A result of -1 in the source (an unknown letter) is `None` here.
 * Durations are in LDP duration units (a quarter note is 64); they are
 * dyadic rationals and are held as `real`, which is exact for them.
 */
module LdpNotation {
  import opened Wrappers

  /** Diatonic step names. */
  datatype Step = C | D | E | F | G | A | B

  /** Chromatic alterations written in front of the step letter. */
  datatype Accidentals =
    | NoAccidentals | Sharp | Flat | Natural | DoubleSharp
    | SharpSharp | FlatFlat | NaturalFlat

  /** Note types: 0 = longa, 1 = breve, 2 = whole, ..., 10 = 256th. */
  type NoteType = k: int | 0 <= k <= 10

  const Longa: NoteType := 0
  const Breve: NoteType := 1
  const Whole: NoteType := 2
  const Half: NoteType := 3
  const Quarter: NoteType := 4
  const Eighth: NoteType := 5
  const Sixteenth: NoteType := 6

  // ---------------------------------------------------------------------
  // Letters and their inverse encoders
  // ---------------------------------------------------------------------

  /** The lower-case letter that names a step. */
  function StepLetter(s: Step): char
  {
    match s
    case A => 'a'
    case B => 'b'
    case C => 'c'
    case D => 'd'
    case E => 'e'
    case F => 'f'
    case G => 'g'
  }

  /** to_step: a letter a..g names a step; any other letter is an error. */
  function ToStep(letter: char): (r: Option<Step>)
    ensures r.Some? <==> 'a' <= letter <= 'g'
    ensures r.Some? ==> StepLetter(r.value) == letter
  {
    match letter
    case 'a' => Some(A)
    case 'b' => Some(B)
    case 'c' => Some(C)
    case 'd' => Some(D)
    case 'e' => Some(E)
    case 'f' => Some(F)
    case 'g' => Some(G)
    case _ => None
  }

  /** The digit character for an octave 0..9. */
  function OctaveDigit(n: nat): char
    requires n <= 9
  {
    ('0' as int + n) as char
  }

  /** to_octave: a digit 0..9 is an octave; any other character is an error. */
  function ToOctave(letter: char): (r: Option<nat>)
    ensures r.Some? <==> '0' <= letter <= '9'
    ensures r.Some? ==> r.value <= 9 && OctaveDigit(r.value) == letter
  {
    match letter
    case '0' => Some(0)
    case '1' => Some(1)
    case '2' => Some(2)
    case '3' => Some(3)
    case '4' => Some(4)
    case '5' => Some(5)
    case '6' => Some(6)
    case '7' => Some(7)
    case '8' => Some(8)
    case '9' => Some(9)
    case _ => None
  }

  /** The LDP spelling of an alteration. */
  function AccidentalsText(a: Accidentals): string
  {
    match a
    case NoAccidentals => ""
    case Sharp => "+"
    case Flat => "-"
    case Natural => "="
    case DoubleSharp => "x"
    case SharpSharp => "++"
    case FlatFlat => "--"
    case NaturalFlat => "=-"
  }

  /** to_accidentals: exactly eight spellings are valid, everything else is an error. */
  function ToAccidentals(s: string): (r: Option<Accidentals>)
    ensures r.Some? <==> s in {"", "+", "-", "=", "x", "++", "--", "=-"}
    ensures r.Some? ==> AccidentalsText(r.value) == s
  {
    if |s| == 0 then Some(NoAccidentals)
    else if |s| == 1 then
      assert s == [s[0]];
      if s[0] == '+' then Some(Sharp)
      else if s[0] == '-' then Some(Flat)
      else if s[0] == '=' then Some(Natural)
      else if s[0] == 'x' then Some(DoubleSharp)
      else None
    else if |s| == 2 then
      if s == "++" then Some(SharpSharp)
      else if s == "--" then Some(FlatFlat)
      else if s == "=-" then Some(NaturalFlat)
      else None
    else None
  }

  /** The LDP letter of a note type (l b w h q e s t i o f). */
  function NoteLetter(k: NoteType): char
  {
    "lbwhqestiof"[k]
  }

  /** to_note_type: one letter per note type; any other letter is an error. */
  function ToNoteType(letter: char): (r: Option<NoteType>)
    ensures r.Some? <==> letter in "lbwhqestiof"
    ensures r.Some? ==> NoteLetter(r.value) == letter
  {
    match letter
    case 'l' => Some(0)
    case 'b' => Some(1)
    case 'w' => Some(2)
    case 'h' => Some(3)
    case 'q' => Some(4)
    case 'e' => Some(5)
    case 's' => Some(6)
    case 't' => Some(7)
    case 'i' => Some(8)
    case 'o' => Some(9)
    case 'f' => Some(10)
    case _ => None
  }

  lemma {:induction false} LettersRoundTrip(s: Step, n: nat, a: Accidentals, k: NoteType)
    requires n <= 9
    ensures ToStep(StepLetter(s)) == Some(s)
    ensures ToOctave(OctaveDigit(n)) == Some(n)
    ensures ToAccidentals(AccidentalsText(a)) == Some(a)
    ensures ToNoteType(NoteLetter(k)) == Some(k)
  {
    assert "lbwhqestiof"[k] in "lbwhqestiof";
  }

  // ---------------------------------------------------------------------
  // Pitch strings
  // ---------------------------------------------------------------------

  /**
   * The three integers that ldp_pitch_to_components writes through its
   * pointer arguments, and its result (true = error). An output that the
   * function left untouched keeps the value it had on entry; one set to -1
   * by a failed decoder is `None`.
   */
  datatype PitchOut = PitchOut(error: bool, step: Option<Step>, octave: Option<nat>, acc: Option<Accidentals>)

  /** The LDP spelling of a pitch: alteration, step letter, octave digit. */
  function PitchText(acc: Accidentals, step: Step, octave: nat): string
    requires octave <= 9
  {
    AccidentalsText(acc) + [StepLetter(step), OctaveDigit(octave)]
  }

  /**
   * ldp_pitch_to_components. The octave is decoded from the last character,
   * the step from the one before, the alteration from what remains. The
   * empty string is excluded: there the source's unsigned index wraps.
   */
  function LdpPitchToComponents(pitch: string, step0: Option<Step>, octave0: Option<nat>, acc0: Option<Accidentals>): (r: PitchOut)
    requires |pitch| >= 1
    ensures !r.error ==> r.step.Some? && r.octave.Some? && r.acc.Some?
  {
    var n := |pitch|;
    if n - 1 < 1 then PitchOut(true, step0, octave0, acc0)
    else
      var octave := ToOctave(pitch[n - 1]);
      if octave.None? then PitchOut(true, step0, octave, acc0)
      else
        var step := ToStep(pitch[n - 2]);
        if step.None? then PitchOut(true, step, octave, acc0)
        else if n - 2 == 0 then PitchOut(false, step, octave, Some(NoAccidentals))
        else
          var acc := ToAccidentals(pitch[..n - 2]);
          PitchOut(acc.None?, step, octave, acc)
  }

  /** Every spelled pitch decodes to its own components. */
  lemma {:induction false} PitchRoundTrip(acc: Accidentals, step: Step, octave: nat,
                                          step0: Option<Step>, octave0: Option<nat>, acc0: Option<Accidentals>)
    requires octave <= 9
    ensures LdpPitchToComponents(PitchText(acc, step, octave), step0, octave0, acc0)
            == PitchOut(false, Some(step), Some(octave), Some(acc))
  {
    var p := PitchText(acc, step, octave);
    var n := |p|;
    LettersRoundTrip(step, octave, acc, 0);
    assert p[n - 1] == OctaveDigit(octave);
    assert p[n - 2] == StepLetter(step);
    assert p[..n - 2] == AccidentalsText(acc);
  }

  /** A pitch decodes without error only if it is the spelling of its components. */
  lemma {:induction false} PitchDecodeComplete(pitch: string, step0: Option<Step>, octave0: Option<nat>, acc0: Option<Accidentals>)
    requires |pitch| >= 1
    ensures var r := LdpPitchToComponents(pitch, step0, octave0, acc0);
            !r.error ==> r.octave.value <= 9 && pitch == PitchText(r.acc.value, r.step.value, r.octave.value)
  {
    var r := LdpPitchToComponents(pitch, step0, octave0, acc0);
    var n := |pitch|;
    if !r.error {
      assert pitch == pitch[..n - 2] + [pitch[n - 2], pitch[n - 1]];
      if n - 2 == 0 {
        assert pitch[..n - 2] == "";
      }
    }
  }

  /** The error cases: a one-character pitch, a bad octave digit, a bad step letter, a bad alteration. */
  lemma {:induction false} PitchErrors(pitch: string, step0: Option<Step>, octave0: Option<nat>, acc0: Option<Accidentals>)
    requires |pitch| >= 1
    ensures |pitch| == 1 ==> LdpPitchToComponents(pitch, step0, octave0, acc0) == PitchOut(true, step0, octave0, acc0)
    ensures LdpPitchToComponents(pitch, step0, octave0, acc0).error <==>
              (|pitch| == 1
               || !('0' <= pitch[|pitch| - 1] <= '9')
               || !('a' <= pitch[|pitch| - 2] <= 'g')
               || pitch[..|pitch| - 2] !in {"", "+", "-", "=", "x", "++", "--", "=-"})
  {
  }

  // ---------------------------------------------------------------------
  // Duration strings
  // ---------------------------------------------------------------------

  /** NoteTypeAndDots; `None` is k_unknown_notetype. */
  datatype NoteTypeAndDots = NoteTypeAndDots(noteType: Option<NoteType>, dots: nat)

  const UnknownDuration := NoteTypeAndDots(None, 0)

  /** The dot counter: the number of dots, or None as soon as a non-dot is met. */
  function CountDots(s: string): (r: Option<nat>)
    ensures r.Some? <==> forall i :: 0 <= i < |s| ==> s[i] == '.'
    ensures r.Some? ==> r.value == |s|
  {
    if s == [] then Some(0)
    else if s[0] != '.' then None
    else match CountDots(s[1..])
      case None => None
      case Some(k) => Some(k + 1)
  }

  /** ldp_duration_to_components */
  function LdpDurationToComponents(duration: string): (r: NoteTypeAndDots)
    ensures r.noteType.None? ==> r.dots == 0
  {
    if |duration| == 0 then UnknownDuration
    else match ToNoteType(duration[0])
      case None => UnknownDuration
      case Some(t) =>
        match CountDots(duration[1..])
        case None => UnknownDuration
        case Some(dots) => NoteTypeAndDots(Some(t), dots)
  }

  /** k dots. */
  function Dots(k: nat): (s: string)
    ensures |s| == k && forall i :: 0 <= i < k ==> s[i] == '.'
  {
    seq(k, _ => '.')
  }

  /** A note letter followed by k dots decodes to that note type and k. */
  lemma {:induction false} DurationRoundTrip(t: NoteType, k: nat)
    ensures LdpDurationToComponents([NoteLetter(t)] + Dots(k)) == NoteTypeAndDots(Some(t), k)
  {
    var s := [NoteLetter(t)] + Dots(k);
    LettersRoundTrip(A, 0, NoAccidentals, t);
    assert s[0] == NoteLetter(t);
    assert s[1..] == Dots(k);
  }

  /** The decoder fails exactly on the empty string, an unknown first letter or a later non-dot. */
  lemma {:induction false} DurationErrors(duration: string)
    ensures LdpDurationToComponents(duration) == UnknownDuration <==>
              (|duration| == 0
               || duration[0] !in "lbwhqestiof"
               || exists i :: 1 <= i < |duration| && duration[i] != '.')
    ensures LdpDurationToComponents(duration) != UnknownDuration ==>
              LdpDurationToComponents(duration) == NoteTypeAndDots(ToNoteType(duration[0]), |duration| - 1)
  {
    if |duration| > 0 {
      var tail := duration[1..];
      if exists i :: 1 <= i < |duration| && duration[i] != '.' {
        var i :| 1 <= i < |duration| && duration[i] != '.';
        assert tail[i - 1] != '.';
      } else {
        forall j | 0 <= j < |tail| ensures tail[j] == '.' {
          assert duration[j + 1] == '.';
        }
      }
    }
  }

  // ---------------------------------------------------------------------
  // Duration values
  // ---------------------------------------------------------------------

  function Pow2(n: nat): (r: nat)
    ensures r >= 1
  {
    if n == 0 then 1 else 2 * Pow2(n - 1)
  }

  /**
   * to_duration: the undotted value of a note type, times the dot factor.
   * Every result lies between a 256th note and a nine-times-dotted longa.
   */
  function ToDuration(noteType: int, dots: int): (r: real)
    ensures 1.0 <= r < 2048.0
  {
    var base: real :=
      match noteType
      case 0 => 1024.0
      case 1 => 512.0
      case 2 => 256.0
      case 3 => 128.0
      case 4 => 64.0
      case 5 => 32.0
      case 6 => 16.0
      case 7 => 8.0
      case 8 => 4.0
      case 9 => 2.0
      case 10 => 1.0
      case _ => 64.0;
    match dots
    case 0 => base
    case 1 => base * 1.5
    case 2 => base * 1.75
    case 3 => base * 1.875
    case 4 => base * 1.9375
    case 5 => base * 1.96875
    case 6 => base * 1.984375
    case 7 => base * 1.9921875
    case 8 => base * 1.99609375
    case 9 => base * 1.998046875
    case _ => base
  }

  /** Undotted note type k lasts 2^(10-k) units; an unknown note type lasts a quarter. */
  lemma {:induction false} UndottedDuration(noteType: int)
    ensures 0 <= noteType <= 10 ==> ToDuration(noteType, 0) == Pow2(10 - noteType) as real
    ensures !(0 <= noteType <= 10) ==> ToDuration(noteType, 0) == 64.0
  {
    if 0 <= noteType <= 10 {
      var k := 10 - noteType;
      assert Pow2(0) == 1;
      assert Pow2(1) == 2;
      assert Pow2(2) == 4;
      assert Pow2(3) == 8;
      assert Pow2(4) == 16;
      assert Pow2(5) == 32;
      assert Pow2(6) == 64;
      assert Pow2(7) == 128;
      assert Pow2(8) == 256;
      assert Pow2(9) == 512;
      assert Pow2(10) == 1024;
    }
  }

  /** n dots (1..9) multiply the undotted value by 2 - 2^-n; other dot counts leave it. */
  lemma {:induction false} DottedDuration(noteType: int, dots: int)
    ensures 0 <= dots <= 9 ==>
              ToDuration(noteType, dots) == ToDuration(noteType, 0) * (2.0 - 1.0 / Pow2(dots) as real)
    ensures !(0 <= dots <= 9) ==> ToDuration(noteType, dots) == ToDuration(noteType, 0)
  {
    if 0 <= dots <= 9 {
      assert Pow2(0) == 1;
      assert Pow2(1) == 2;
      assert Pow2(2) == 4;
      assert Pow2(3) == 8;
      assert Pow2(4) == 16;
      assert Pow2(5) == 32;
      assert Pow2(6) == 64;
      assert Pow2(7) == 128;
      assert Pow2(8) == 256;
      assert Pow2(9) == 512;
    }
  }

  /** Each further dot (up to nine) adds half of what the previous one added. */
  lemma {:induction false} DotAddsHalf(noteType: int, dots: nat)
    requires dots < 9
    ensures ToDuration(noteType, dots + 1) - ToDuration(noteType, dots)
            == ToDuration(noteType, 0) / Pow2(dots + 1) as real
  {
    assert Pow2(1) == 2 && Pow2(2) == 4 && Pow2(3) == 8;
    assert Pow2(4) == 16 && Pow2(5) == 32 && Pow2(6) == 64;
    assert Pow2(7) == 128 && Pow2(8) == 256 && Pow2(9) == 512;
  }

  // ---------------------------------------------------------------------
  // Time signatures
  // ---------------------------------------------------------------------

  /** The two fields of ImoTimeSignature used here: beats per measure and the beat's note value. */
  datatype TimeSignature = TimeSignature(beats: int, beatType: int)
  {
    /** get_beat_duration: 2^(10 - note type) for beat types 1, 2, 4, 8, 16; 64 otherwise. */
    function BeatDuration(): (r: real)
      ensures r in {16.0, 32.0, 64.0, 128.0, 256.0}
    {
      match beatType
      case 1 => 256.0
      case 2 => 128.0
      case 4 => 64.0
      case 8 => 32.0
      case 16 => 16.0
      case _ => 64.0
    }

    /**
     * get_measure_duration: beats times the beat; for the five beat types
     * get_beat_duration knows, a measure lasts beats / beatType whole notes;
     * any other beat type counts quarter-note beats.
     */
    function MeasureDuration(): (r: real)
      ensures beatType in {1, 2, 4, 8, 16} ==> r * beatType as real == beats as real * 256.0
      ensures beatType !in {1, 2, 4, 8, 16} ==> r == beats as real * ToDuration(Quarter, 0)
    {
      beats as real * BeatDuration()
    }
  }

  /** A beat lasts as long as the undotted note whose name the beat type gives. */
  lemma {:induction false} BeatIsUndottedNote(ts: TimeSignature)
    ensures ts.beatType == 1 ==> ts.BeatDuration() == ToDuration(Whole, 0)
    ensures ts.beatType == 2 ==> ts.BeatDuration() == ToDuration(Half, 0)
    ensures ts.beatType == 4 ==> ts.BeatDuration() == ToDuration(Quarter, 0)
    ensures ts.beatType == 8 ==> ts.BeatDuration() == ToDuration(Eighth, 0)
    ensures ts.beatType == 16 ==> ts.BeatDuration() == ToDuration(Sixteenth, 0)
    ensures ts.beatType in {1, 2, 4, 8, 16} ==> ts.BeatDuration() * ts.beatType as real == 256.0
    ensures ts.beatType !in {1, 2, 4, 8, 16} ==> ts.BeatDuration() == ToDuration(Quarter, 0)
  {
  }

  /** A measure lasts beats / beatType whole notes (for the beat types get_beat_duration knows). */
  lemma {:induction false} MeasureInWholeNotes(ts: TimeSignature)
    requires ts.beatType in {1, 2, 4, 8, 16}
    ensures ts.MeasureDuration() * ts.beatType as real == ts.beats as real * ToDuration(Whole, 0)
  {
    BeatIsUndottedNote(ts);
    assert ToDuration(Whole, 0) == 256.0;
  }

  /** Common meters: 4/4 and 2/2 fill a whole note, 3/4 and 6/8 a dotted half, 2/4 a half. */
  lemma CommonMeasures()
    ensures TimeSignature(4, 4).MeasureDuration() == ToDuration(Whole, 0)
    ensures TimeSignature(2, 2).MeasureDuration() == ToDuration(Whole, 0)
    ensures TimeSignature(3, 4).MeasureDuration() == ToDuration(Half, 1)
    ensures TimeSignature(6, 8).MeasureDuration() == ToDuration(Half, 1)
    ensures TimeSignature(2, 4).MeasureDuration() == ToDuration(Half, 0)
  {
  }
}
