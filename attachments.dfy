/**
 * Two lists the document model keeps per object
 * (src/internal_model/lomse_internal_model.cpp):
 *  - ImoAttachments, the auxiliary objects attached to a score object,
 *    kept ordered by rendering priority;
 *  - ImoRelObj, the (staff object, relation data) pairs of a relation
 *    such as a beam, tie or slur.
 * Object pointers are modelled by their identity (`id`, `StaffObjRef`).
 */
module Attachments {
  import opened Wrappers

  /**
   * The object types with a rendering priority; every other k_imo_* code is
   * OtherType. The code of an OtherType is meant to be none of the six listed
   * kinds' codes (the enumeration is not part of this model, so this is not checked).
   */
  datatype ObjType = Tie | Beam | Chord | Tuplet | Slur | Fermata | OtherType(code: int)

  /** An auxiliary object (ImoAuxObj*): its identity and its type. */
  datatype AuxObj = AuxObj(id: nat, objType: ObjType)

  /** get_priority: tie 0, beam 1, chord 2, tuplet 3, slur 4, fermata 5, anything else 5000. */
  function GetPriority(t: ObjType): (p: int)
    ensures t.OtherType? <==> p == 5000
    ensures !t.OtherType? ==> 0 <= p <= 5
  {
    match t
    case Tie => 0
    case Beam => 1
    case Chord => 2
    case Tuplet => 3
    case Slur => 4
    case Fermata => 5
    case OtherType(_) => 5000
  }

  /** The listed types are rendered first, in this order, and distinct types never share a listed priority. */
  lemma PriorityOrder(t: ObjType, u: ObjType, code: int)
    ensures GetPriority(Tie) < GetPriority(Beam) < GetPriority(Chord) < GetPriority(Tuplet)
            < GetPriority(Slur) < GetPriority(Fermata) < 1000 < GetPriority(OtherType(code))
    ensures !t.OtherType? && !u.OtherType? ==> (GetPriority(t) == GetPriority(u) <==> t == u)
  {
  }

  function Priority(ao: AuxObj): int
  {
    GetPriority(ao.objType)
  }

  predicate SortedByPriority(s: seq<AuxObj>)
  {
    forall i, j :: 0 <= i < j < |s| ==> Priority(s[i]) <= Priority(s[j])
  }

  /** The position add() stops at: the first item of priority greater than p, or the end. */
  function InsertionPoint(s: seq<AuxObj>, p: int): (k: nat)
    ensures k <= |s|
    ensures forall i :: 0 <= i < k ==> Priority(s[i]) <= p
    ensures k < |s| ==> Priority(s[k]) > p
  {
    if s == [] || Priority(s[0]) > p then 0 else 1 + InsertionPoint(s[1..], p)
  }

  /** Where add() puts an object: at the end for the low-priority kinds (> 1000), else at the insertion point. */
  function AddPosition(s: seq<AuxObj>, ao: AuxObj): (k: nat)
    ensures k <= |s|
  {
    if Priority(ao) > 1000 then |s| else InsertionPoint(s, Priority(ao))
  }

  /** The list after add(ao). */
  function Added(s: seq<AuxObj>, ao: AuxObj): (r: seq<AuxObj>)
    ensures |r| == |s| + 1
  {
    var k := AddPosition(s, ao);
    s[..k] + [ao] + s[k..]
  }

  /** On a sorted list add() goes after every item of equal or lower priority and before every higher one. */
  lemma AddPositionSplits(s: seq<AuxObj>, ao: AuxObj)
    requires SortedByPriority(s)
    ensures var k := AddPosition(s, ao);
            (forall i :: 0 <= i < k ==> Priority(s[i]) <= Priority(ao))
            && (forall i :: k <= i < |s| ==> Priority(s[i]) > Priority(ao))
  {
    var k := AddPosition(s, ao);
    if Priority(ao) > 1000 {
      assert forall i :: 0 <= i < |s| ==> Priority(s[i]) <= 5000;
    } else {
      forall i | k <= i < |s| ensures Priority(s[i]) > Priority(ao) {
        assert Priority(s[k]) <= Priority(s[i]);
      }
    }
  }

  /** add() inserts exactly the new object and keeps every other item, in order. */
  lemma AddedElements(s: seq<AuxObj>, ao: AuxObj)
    ensures var k := AddPosition(s, ao);
            var r := Added(s, ao);
            r[k] == ao
            && (forall i :: 0 <= i < k ==> r[i] == s[i])
            && (forall i :: k < i < |r| ==> r[i] == s[i - 1])
            && multiset(r) == multiset(s) + multiset{ao}
  {
    var k := AddPosition(s, ao);
    assert s == s[..k] + s[k..];
  }

  /** add() on a list sorted by priority keeps it sorted. */
  lemma AddKeepsSorted(s: seq<AuxObj>, ao: AuxObj)
    requires SortedByPriority(s)
    ensures SortedByPriority(Added(s, ao))
  {
    var k := AddPosition(s, ao);
    var r := Added(s, ao);
    AddPositionSplits(s, ao);
    AddedElements(s, ao);
    forall i, j | 0 <= i < j < |r| ensures Priority(r[i]) <= Priority(r[j]) {
      var pi := if i < k then Priority(s[i]) else if i == k then Priority(ao) else Priority(s[i - 1]);
      var pj := if j < k then Priority(s[j]) else if j == k then Priority(ao) else Priority(s[j - 1]);
      assert Priority(r[i]) == pi && Priority(r[j]) == pj;
      if i < k && j > k {
        assert Priority(s[i]) <= Priority(s[j - 1]);
      }
    }
  }

  /** For the low-priority kinds the short cut to the end agrees with the scan. */
  lemma {:induction false} LowPriorityScanReachesEnd(s: seq<AuxObj>)
    ensures InsertionPoint(s, 5000) == |s|
  {
    if s != [] {
      LowPriorityScanReachesEnd(s[1..]);
    }
  }

  /** The list after remove(ao): std::list::remove drops every occurrence and keeps the order of the rest. */
  function RemoveAll(s: seq<AuxObj>, x: AuxObj): (r: seq<AuxObj>)
    ensures x !in r
    ensures x !in s ==> r == s
  {
    if s == [] then []
    else if s[0] == x then RemoveAll(s[1..], x)
    else [s[0]] + RemoveAll(s[1..], x)
  }

  /** remove(ao) keeps every other object with its multiplicity, and shortens the list by the copies of ao. */
  lemma {:induction false} RemoveAllCounts(s: seq<AuxObj>, x: AuxObj)
    ensures forall y :: y != x ==> multiset(RemoveAll(s, x))[y] == multiset(s)[y]
    ensures |RemoveAll(s, x)| == |s| - multiset(s)[x]
  {
    if s != [] {
      RemoveAllCounts(s[1..], x);
      assert s == [s[0]] + s[1..];
    }
  }

  lemma {:induction false} RemoveAllAround(pre: seq<AuxObj>, x: AuxObj, post: seq<AuxObj>)
    requires x !in pre && x !in post
    ensures RemoveAll(pre + [x] + post, x) == pre + post
    decreases |pre|
  {
    var whole := pre + [x] + post;
    if pre == [] {
      assert whole[0] == x && whole[1..] == post;
    } else {
      assert whole[0] == pre[0] && whole[1..] == pre[1..] + [x] + post;
      RemoveAllAround(pre[1..], x, post);
      assert pre + post == [pre[0]] + (pre[1..] + post);
    }
  }

  /** Everything remove() leaves was in the list before. */
  lemma {:induction false} RemoveAllFrom(s: seq<AuxObj>, x: AuxObj)
    ensures forall y :: y in RemoveAll(s, x) ==> y in s
  {
    if s != [] {
      RemoveAllFrom(s[1..], x);
    }
  }

  /** In an ordered list the head's priority bounds the rest, and the rest is ordered. */
  lemma SortedTail(s: seq<AuxObj>)
    requires SortedByPriority(s) && |s| > 0
    ensures SortedByPriority(s[1..])
    ensures forall y :: y in s[1..] ==> Priority(s[0]) <= Priority(y)
  {
    forall y | y in s[1..] ensures Priority(s[0]) <= Priority(y) {
      var m :| 0 <= m < |s[1..]| && s[1..][m] == y;
      assert s[m + 1] == y;
    }
  }

  /** remove() keeps a list ordered by priority ordered. */
  lemma {:induction false} RemoveAllKeepsSorted(s: seq<AuxObj>, x: AuxObj)
    requires SortedByPriority(s)
    ensures SortedByPriority(RemoveAll(s, x))
  {
    if s != [] {
      var t := s[1..];
      SortedTail(s);
      RemoveAllKeepsSorted(t, x);
      if s[0] != x {
        var r := RemoveAll(t, x);
        RemoveAllFrom(t, x);
        var full := [s[0]] + r;
        assert full == RemoveAll(s, x);
        forall i, j | 0 <= i < j < |full| ensures Priority(full[i]) <= Priority(full[j]) {
          assert full[j] == r[j - 1] && r[j - 1] in t;
          if i > 0 {
            assert full[i] == r[i - 1];
          }
        }
      }
    }
  }

  /** Removing an object that was just added to a list not holding it restores the list. */
  lemma AddThenRemove(s: seq<AuxObj>, ao: AuxObj)
    requires ao !in s
    ensures RemoveAll(Added(s, ao), ao) == s
  {
    var k := AddPosition(s, ao);
    var pre, post := s[..k], s[k..];
    assert ao !in pre && ao !in post;
    assert Added(s, ao) == pre + [ao] + post;
    RemoveAllAround(pre, ao, post);
    assert pre + post == s;
  }

  /** The attached objects, kept ordered by rendering priority. */
  class ImoAttachments {
    var items: seq<AuxObj>

    /** The list is ordered by rendering priority. */
    ghost predicate Valid()
      reads this
    {
      SortedByPriority(items)
    }

    constructor ()
      ensures items == [] && Valid()
    {
      items := [];
    }

    /** get_num_items: the number of attachments. */
    function GetNumItems(): (n: nat)
      reads this
      ensures n == |items|
      ensures n == 0 <==> items == []
    {
      |items|
    }

    /** add: insertion by rendering priority. */
    method Add(ao: AuxObj)
      requires Valid()
      modifies this
      ensures items == Added(old(items), ao)
      ensures Valid()
    {
      AddKeepsSorted(items, ao);
      var priority := GetPriority(ao.objType);
      if priority > 1000 {
        items := items + [ao];
      } else {
        var it := 0;
        while it < |items|
          invariant 0 <= it <= |items|
          invariant forall i :: 0 <= i < it ==> Priority(items[i]) <= priority
          invariant it <= InsertionPoint(items, priority)
        {
          if GetPriority(items[it].objType) > priority {
            break;
          }
          it := it + 1;
        }
        assert it == InsertionPoint(items, priority);
        if it == |items| {
          items := items + [ao];
          assert items == Added(old(items), ao);
        } else {
          items := items[..it] + [ao] + items[it..];
        }
      }
    }

    /** get_item: the i-th item, NULL past the end; a negative index stops at the first. */
    method GetItem(iItem: int) returns (r: Option<AuxObj>)
      ensures 0 <= iItem < |items| ==> r == Some(items[iItem])
      ensures iItem >= |items| ==> r == None
      ensures iItem < 0 ==> r == if |items| > 0 then Some(items[0]) else None
    {
      var it := 0;
      var n := iItem;
      while it < |items| && n > 0
        invariant 0 <= it <= |items|
        invariant iItem <= 0 ==> it == 0 && n == iItem
        invariant iItem > 0 ==> 0 <= n && it + n == iItem
      {
        it, n := it + 1, n - 1;
      }
      if it < |items| {
        r := Some(items[it]);
      } else {
        r := None;
      }
    }

    /** find_item_of_type: the first attached object of the given type, or NULL. */
    method FindItemOfType(t: ObjType) returns (r: Option<AuxObj>)
      ensures r.None? <==> forall j :: 0 <= j < |items| ==> items[j].objType != t
      ensures r.Some? ==> exists k :: 0 <= k < |items| && items[k] == r.value && r.value.objType == t
                                      && forall j :: 0 <= j < k ==> items[j].objType != t
    {
      var it := 0;
      while it < |items|
        invariant 0 <= it <= |items|
        invariant forall j :: 0 <= j < it ==> items[j].objType != t
      {
        if items[it].objType == t {
          return Some(items[it]);
        }
        it := it + 1;
      }
      r := None;
    }

    /** remove: drops every occurrence of the object. */
    method Remove(ao: AuxObj)
      requires Valid()
      modifies this
      ensures items == RemoveAll(old(items), ao)
      ensures Valid()
    {
      RemoveAllKeepsSorted(items, ao);
      items := RemoveAll(items, ao);
    }
  }

  // ---------------------------------------------------------------------
  // ImoRelObj
  // ---------------------------------------------------------------------

  type StaffObjRef = nat
  type RelDataRef = nat

  /** A (staff object, relation data) pair; the data pointer may be NULL (None). */
  type RelPair = (StaffObjRef, Option<RelDataRef>)

  /** Index of the first pair whose staff object is `so`. */
  function FindPair(rel: seq<RelPair>, so: StaffObjRef): (r: Option<nat>)
    ensures r.Some? ==> r.value < |rel| && rel[r.value].0 == so
                        && forall j :: 0 <= j < r.value ==> rel[j].0 != so
    ensures r.None? ==> forall j :: 0 <= j < |rel| ==> rel[j].0 != so
  {
    if rel == [] then None
    else if rel[0].0 == so then Some(0)
    else match FindPair(rel[1..], so)
      case None => None
      case Some(k) => Some(k + 1)
  }

  /** The pairs after remove(so): only the first matching pair is erased. */
  function RemoveFirst(rel: seq<RelPair>, so: StaffObjRef): seq<RelPair>
  {
    match FindPair(rel, so)
    case None => rel
    case Some(k) => rel[..k] + rel[k + 1..]
  }

  /**
   * What get_data_for(so) returns: the data of the first matching pair, or NULL
   * when none matches. The first matching pair's data may itself be NULL.
   */
  function DataFor(rel: seq<RelPair>, so: StaffObjRef): Option<RelDataRef>
  {
    match FindPair(rel, so)
    case None => None
    case Some(k) => rel[k].1
  }

  /** push_back of a new staff object makes its data findable, and remove takes it out again. */
  lemma PushThenRemove(rel: seq<RelPair>, so: StaffObjRef, d: Option<RelDataRef>)
    requires FindPair(rel, so).None?
    ensures DataFor(rel + [(so, d)], so) == d
    ensures FindPair(rel + [(so, d)], so) == Some(|rel|)
    ensures RemoveFirst(rel + [(so, d)], so) == rel
  {
    assert (rel + [(so, d)])[|rel|] == (so, d);
  }

  /** push_back of a staff object already present does not change what get_data_for finds. */
  lemma PushKeepsFirstMatch(rel: seq<RelPair>, so: StaffObjRef, other: StaffObjRef, d: Option<RelDataRef>)
    requires FindPair(rel, so).Some? || so != other
    ensures DataFor(rel + [(other, d)], so) == DataFor(rel, so)
  {
    var r := rel + [(other, d)];
    if FindPair(rel, so).Some? {
      var k := FindPair(rel, so).value;
      assert r[k] == rel[k];
      assert FindPair(r, so) == Some(k);
    } else {
      assert forall j :: 0 <= j < |r| ==> r[j].0 != so;
    }
  }

  /** Erasing position k drops one element: that one. */
  lemma EraseAt(rel: seq<RelPair>, k: nat)
    requires k < |rel|
    ensures |rel[..k] + rel[k + 1..]| == |rel| - 1
    ensures multiset(rel[..k] + rel[k + 1..]) == multiset(rel) - multiset{rel[k]}
  {
    var pre, post := rel[..k], rel[k + 1..];
    assert rel == pre + [rel[k]] + post;
    assert multiset(rel) == multiset(pre) + multiset{rel[k]} + multiset(post);
  }

  /** remove(so) erases exactly one pair when one matches, and none otherwise. */
  lemma RemoveFirstErasesOne(rel: seq<RelPair>, so: StaffObjRef)
    ensures match FindPair(rel, so)
            case None => RemoveFirst(rel, so) == rel
            case Some(k) =>
              |RemoveFirst(rel, so)| == |rel| - 1
              && multiset(RemoveFirst(rel, so)) == multiset(rel) - multiset{rel[k]}
  {
    match FindPair(rel, so)
    case None =>
    case Some(k) =>
      EraseAt(rel, k);
  }

  class ImoRelObj {
    var related: seq<RelPair>

    constructor ()
      ensures related == []
    {
      related := [];
    }

    /** push_back */
    method PushBack(so: StaffObjRef, data: Option<RelDataRef>)
      modifies this
      ensures related == old(related) + [(so, data)]
    {
      related := related + [(so, data)];
    }

    /** remove: erases the first pair whose staff object is `so`. */
    method Remove(so: StaffObjRef)
      modifies this
      ensures related == RemoveFirst(old(related), so)
    {
      var it := 0;
      while it < |related|
        invariant 0 <= it <= |related|
        invariant forall j :: 0 <= j < it ==> related[j].0 != so
      {
        if related[it].0 == so {
          assert FindPair(related, so) == Some(it);
          related := related[..it] + related[it + 1..];
          return;
        }
        it := it + 1;
      }
    }

    /**
     * get_data_for: NULL both when no pair has the staff object and when the
     * first pair that has it holds NULL data.
     */
    method GetDataFor(so: StaffObjRef) returns (r: Option<RelDataRef>)
      ensures r == DataFor(related, so)
      ensures r.Some? <==> exists j :: 0 <= j < |related| && related[j].0 == so && related[j].1.Some?
                                     && forall i :: 0 <= i < j ==> related[i].0 != so
      ensures r.Some? ==> exists j :: 0 <= j < |related| && related[j] == (so, r)
    {
      var it := 0;
      while it < |related|
        invariant 0 <= it <= |related|
        invariant forall j :: 0 <= j < it ==> related[j].0 != so
      {
        if related[it].0 == so {
          assert FindPair(related, so) == Some(it);
          return related[it].1;
        }
        it := it + 1;
      }
      r := None;
    }
  }
}
