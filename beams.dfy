/**
 * Beam information per beam level: the LDP segment-string decoder and the
 * start/end-of-beam tests of ImoBeamDto and ImoBeamData
 * (src/internal_model/lomse_internal_model.cpp).
 */
module Beams {
  import opened Wrappers

  /** ImoBeam::k_none, k_begin, k_continue, k_end, k_forward, k_backward */
  datatype BeamType = NoBeam | Begin | Continue | End | Forward | Backward

  /** Number of beam levels an object records (m_beamType[6]). */
  const Levels := 6

  // ---------------------------------------------------------------------
  // Specification
  // ---------------------------------------------------------------------

  /** is_start_of_beam: no level ends or continues a beam, and some level has a beam. */
  predicate StartOfBeam(levels: seq<BeamType>)
  {
    (forall i :: 0 <= i < |levels| ==> levels[i] != End && levels[i] != Continue)
    && (exists i :: 0 <= i < |levels| && levels[i] != NoBeam)
  }

  /** is_end_of_beam: no level begins, hooks forward or continues a beam (all-none counts). */
  predicate EndOfBeam(levels: seq<BeamType>)
  {
    forall i :: 0 <= i < |levels| ==> levels[i] != Begin && levels[i] != Forward && levels[i] != Continue
  }

  /** A position is both a start and an end exactly when its only beams are backward hooks. */
  lemma StartAndEnd(levels: seq<BeamType>)
    ensures StartOfBeam(levels) && EndOfBeam(levels) <==>
              (forall i :: 0 <= i < |levels| ==> levels[i] in {NoBeam, Backward})
              && (exists i :: 0 <= i < |levels| && levels[i] == Backward)
  {
  }

  /** The beam type one segment character denotes ('+', '=', '-', 'f', 'b'). */
  function SegmentType(c: char): (r: Option<BeamType>)
    ensures r.Some? ==> r.value != NoBeam
  {
    match c
    case '+' => Some(Begin)
    case '=' => Some(Continue)
    case '-' => Some(End)
    case 'f' => Some(Forward)
    case 'b' => Some(Backward)
    case _ => None
  }

  /** The segment character of a beam type other than none. */
  function SegmentChar(t: BeamType): char
    requires t != NoBeam
  {
    match t
    case Begin => '+'
    case Continue => '='
    case End => '-'
    case Forward => 'f'
    case Backward => 'b'
  }

  /** Length of the longest prefix of `s` made of segment characters. */
  function ValidPrefix(s: string): (n: nat)
    ensures n <= |s|
    ensures forall i :: 0 <= i < n ==> SegmentType(s[i]).Some?
    ensures n < |s| ==> SegmentType(s[n]).None?
  {
    if s == [] || SegmentType(s[0]).None? then 0 else 1 + ValidPrefix(s[1..])
  }

  /**
   * The levels after set_beam_type(segments): strings of 7 or more
   * characters change nothing; otherwise level i takes the type of
   * character i up to the first invalid character, and the rest keep theirs.
   */
  function ApplySegments(levels: seq<BeamType>, s: string): (r: seq<BeamType>)
    requires |levels| == Levels
    ensures |r| == Levels
  {
    if |s| >= 7 then levels
    else
      var n := ValidPrefix(s);
      seq(Levels, i requires 0 <= i < Levels => if i < n then SegmentType(s[i]).value else levels[i])
  }

  /** The segment string of a full list of beam types. */
  function SegmentText(levels: seq<BeamType>): (s: string)
    requires forall i :: 0 <= i < |levels| ==> levels[i] != NoBeam
    ensures |s| == |levels|
  {
    if levels == [] then "" else [SegmentChar(levels[0])] + SegmentText(levels[1..])
  }

  /** Decoding the spelling of six non-empty levels restores them, whatever was there before. */
  lemma {:induction false} SegmentsRoundTrip(prev: seq<BeamType>, levels: seq<BeamType>)
    requires |prev| == Levels && |levels| == Levels
    requires forall i :: 0 <= i < |levels| ==> levels[i] != NoBeam
    ensures ApplySegments(prev, SegmentText(levels)) == levels
  {
    var s := SegmentText(levels);
    SegmentTextAt(levels);
    assert ValidPrefix(s) == Levels;
  }

  lemma {:induction false} SegmentTextAt(levels: seq<BeamType>)
    requires forall i :: 0 <= i < |levels| ==> levels[i] != NoBeam
    ensures forall i :: 0 <= i < |levels| ==> SegmentType(SegmentText(levels)[i]) == Some(levels[i])
  {
    if levels != [] {
      SegmentTextAt(levels[1..]);
      var s := SegmentText(levels);
      forall i | 0 <= i < |levels| ensures SegmentType(s[i]) == Some(levels[i]) {
        if i > 0 {
          assert s[i] == SegmentText(levels[1..])[i - 1];
        }
      }
    }
  }

  /** Applying the same segment string twice is the same as applying it once. */
  lemma ApplySegmentsIdempotent(levels: seq<BeamType>, s: string)
    requires |levels| == Levels
    ensures ApplySegments(ApplySegments(levels, s), s) == ApplySegments(levels, s)
  {
  }

  /** Decoding a valid string of begins and hooks over empty levels marks a beam start. */
  lemma {:induction false} StartSegmentsStartBeam(s: string)
    requires 0 < |s| < 7
    requires forall i :: 0 <= i < |s| ==> s[i] in "+fb"
    ensures StartOfBeam(ApplySegments(seq(Levels, _ => NoBeam), s))
  {
    var levels := ApplySegments(seq(Levels, _ => NoBeam), s);
    assert SegmentType(s[0]).Some?;
    assert ValidPrefix(s) == |s|;
    assert levels[0] != NoBeam;
    forall i | 0 <= i < Levels ensures levels[i] != End && levels[i] != Continue {
      if i < |s| {
        assert s[i] in "+fb";
      }
    }
  }

  // ---------------------------------------------------------------------
  // The loops of is_start_of_beam / is_end_of_beam, shared by both classes
  // ---------------------------------------------------------------------

  method ScanStartOfBeam(beamType: array<BeamType>) returns (r: bool)
    ensures r == StartOfBeam(beamType[..])
  {
    var fStart := false;
    var level := 0;
    while level < beamType.Length
      invariant 0 <= level <= beamType.Length
      invariant forall i :: 0 <= i < level ==> beamType[i] != End && beamType[i] != Continue
      invariant fStart <==> exists i :: 0 <= i < level && beamType[i] != NoBeam
    {
      if beamType[level] == End || beamType[level] == Continue {
        assert beamType[..][level] == beamType[level];
        return false;
      }
      if beamType[level] != NoBeam {
        fStart := true;
      }
      level := level + 1;
    }
    r := fStart;
  }

  method ScanEndOfBeam(beamType: array<BeamType>) returns (r: bool)
    ensures r == EndOfBeam(beamType[..])
  {
    var level := 0;
    while level < beamType.Length
      invariant 0 <= level <= beamType.Length
      invariant forall i :: 0 <= i < level ==> beamType[i] != Begin && beamType[i] != Forward && beamType[i] != Continue
    {
      if beamType[level] == Begin || beamType[level] == Forward || beamType[level] == Continue {
        assert beamType[..][level] == beamType[level];
        return false;
      }
      level := level + 1;
    }
    r := true;
  }

  // ---------------------------------------------------------------------
  // ImoBeamDto
  // ---------------------------------------------------------------------

  class ImoBeamDto {
    var beamNum: int
    const beamType: array<BeamType>
    const repeat: array<bool>

    ghost predicate Valid()
      reads this
    {
      beamType.Length == Levels && repeat.Length == Levels
    }

    /** A new DTO has no beam at any level and no repeat flags. */
    constructor ()
      ensures Valid() && fresh(beamType) && fresh(repeat)
      ensures beamNum == 0
      ensures beamType[..] == seq(Levels, _ => NoBeam)
      ensures repeat[..] == seq(Levels, _ => false)
    {
      beamNum := 0;
      beamType := new BeamType[Levels](_ => NoBeam);
      repeat := new bool[Levels](_ => false);
    }

    /** set_beam_type(level, type) */
    method SetBeamTypeAt(level: int, t: BeamType)
      requires Valid() && 0 <= level < Levels
      modifies beamType
      ensures beamType[..] == old(beamType[..])[level := t]
    {
      beamType[level] := t;
    }

    /** set_beam_type(string) */
    method SetBeamType(segments: string)
      requires Valid()
      modifies beamType
      ensures beamType[..] == ApplySegments(old(beamType[..]), segments)
    {
      if |segments| < 7 {
        var i := 0;
        while i < |segments|
          invariant 0 <= i <= |segments| && i <= ValidPrefix(segments)
          invariant forall k :: 0 <= k < i ==> beamType[k] == SegmentType(segments[k]).value
          invariant forall k :: i <= k < Levels ==> beamType[k] == old(beamType[k])
        {
          var c := segments[i];
          if c == '+' {
            SetBeamTypeAt(i, Begin);
          } else if c == '=' {
            SetBeamTypeAt(i, Continue);
          } else if c == '-' {
            SetBeamTypeAt(i, End);
          } else if c == 'f' {
            SetBeamTypeAt(i, Forward);
          } else if c == 'b' {
            SetBeamTypeAt(i, Backward);
          } else {
            return;
          }
          i := i + 1;
        }
      }
    }

    /** get_beam_type(level) */
    method GetBeamType(level: int) returns (t: BeamType)
      requires Valid() && 0 <= level < Levels
      ensures t == beamType[level]
    {
      t := beamType[level];
    }

    method IsStartOfBeam() returns (r: bool)
      requires Valid()
      ensures r == StartOfBeam(beamType[..])
    {
      r := ScanStartOfBeam(beamType);
    }

    method IsEndOfBeam() returns (r: bool)
      requires Valid()
      ensures r == EndOfBeam(beamType[..])
    {
      r := ScanEndOfBeam(beamType);
    }
  }

  // ---------------------------------------------------------------------
  // ImoBeamData
  // ---------------------------------------------------------------------

  class ImoBeamData {
    const beamNum: int
    const beamType: array<BeamType>
    const repeat: array<bool>

    ghost predicate Valid()
      reads this
    {
      beamType.Length == Levels && repeat.Length == Levels
    }

    /** Copies the beam number and every level's type and repeat flag from the DTO. */
    constructor (dto: ImoBeamDto)
      requires dto.Valid()
      ensures Valid() && fresh(beamType) && fresh(repeat)
      ensures beamNum == dto.beamNum
      ensures beamType[..] == dto.beamType[..] && repeat[..] == dto.repeat[..]
    {
      beamNum := dto.beamNum;
      var types := new BeamType[Levels];
      var repeats := new bool[Levels];
      var i := 0;
      while i < Levels
        invariant 0 <= i <= Levels
        invariant forall k :: 0 <= k < i ==> types[k] == dto.beamType[k] && repeats[k] == dto.repeat[k]
      {
        types[i] := dto.beamType[i];
        repeats[i] := dto.repeat[i];
        i := i + 1;
      }
      beamType := types;
      repeat := repeats;
    }

    method IsStartOfBeam() returns (r: bool)
      requires Valid()
      ensures r == StartOfBeam(beamType[..])
    {
      r := ScanStartOfBeam(beamType);
    }

    method IsEndOfBeam() returns (r: bool)
      requires Valid()
      ensures r == EndOfBeam(beamType[..])
    {
      r := ScanEndOfBeam(beamType);
    }
  }
}
