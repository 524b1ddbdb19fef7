/**
 * ImoInstrument's list of staff descriptions and replace_staff_info
 * (src/internal_model/lomse_internal_model.cpp).
 */
module Instruments {

  /**
   * ImoStaffInfo: the staff number it describes; the rest of its
   * measurements are carried as an uninterpreted value.
   */
  datatype StaffInfo = StaffInfo(staffNumber: int, attrs: nat)

  /** The position replace_staff_info walks to: the staff number, a negative one stopping at the first. */
  function StaffIndex(info: StaffInfo): nat
  {
    if info.staffNumber < 0 then 0 else info.staffNumber
  }

  /** The staves after replace_staff_info(info). */
  function ReplacedStaves(staves: seq<StaffInfo>, info: StaffInfo): seq<StaffInfo>
  {
    var k := StaffIndex(info);
    if k < |staves| then staves[..k] + [info] + staves[k + 1..] else staves
  }

  /**
   * Replacing keeps the number of staves, puts a copy of the new info at its
   * staff's position and leaves every other staff alone; a staff number past
   * the end changes nothing. Replacing twice with the same info is the same
   * as replacing once.
   */
  lemma ReplaceOnlyItsStaff(staves: seq<StaffInfo>, info: StaffInfo)
    ensures var r := ReplacedStaves(staves, info);
            |r| == |staves|
            && (StaffIndex(info) < |staves| ==> r[StaffIndex(info)] == info)
            && (forall j :: 0 <= j < |staves| && j != StaffIndex(info) ==> r[j] == staves[j])
            && ReplacedStaves(r, info) == r
  {
    var k := StaffIndex(info);
    if k < |staves| {
      var r := ReplacedStaves(staves, info);
      assert r == staves[k := info];
      assert r[..k] + [info] + r[k + 1..] == r[k := info];
    }
  }

  class ImoInstrument {
    var staves: seq<StaffInfo>

    /**
     * The constructor adds one staff. The fields of a default-made ImoStaffInfo
     * are not part of this model, so that first staff is a parameter.
     */
    constructor (first: StaffInfo)
      ensures staves == [first]
    {
      staves := [first];
    }

    /** add_staff: appends a staff description (a default-made one in the source, here a parameter). */
    method AddStaff(info: StaffInfo)
      modifies this
      ensures staves == old(staves) + [info]
    {
      staves := staves + [info];
    }

    /** replace_staff_info: erase the staff at the info's position, then insert a copy of the info there. */
    method ReplaceStaffInfo(info: StaffInfo)
      modifies this
      ensures staves == ReplacedStaves(old(staves), info)
    {
      var iStaff := info.staffNumber;
      var it := 0;
      while it < |staves| && iStaff > 0
        invariant 0 <= it <= |staves|
        invariant info.staffNumber <= 0 ==> it == 0 && iStaff == info.staffNumber
        invariant info.staffNumber > 0 ==> 0 <= iStaff && it + iStaff == info.staffNumber
      {
        it, iStaff := it + 1, iStaff - 1;
      }
      if it < |staves| {
        staves := staves[..it] + staves[it + 1..];
        staves := staves[..it] + [info] + staves[it..];
        assert staves == old(staves)[..it] + [info] + old(staves)[it + 1..];
      }
    }
  }
}
