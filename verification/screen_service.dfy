/** The screen table: records of display ports and the box each is paired
    with. The pairing is kept one-to-one by `AssignBoxToScreen`'s guards.
    As for boxes, a search returns the first match in table order and an
    update rewrites every matching record. */
module ScreenStore {
  import opened Common

  datatype Screen = Screen(
    screenId: int,
    screenNumber: Option<string>,
    portNumber: string,
    vlanNumber: Option<string>,
    boxId: Option<int>)

  /** No two records share an id. */
  ghost predicate UniqueIds(ss: seq<Screen>) {
    forall i, j :: 0 <= i < j < |ss| ==> ss[i].screenId != ss[j].screenId
  }

  /** No box is paired with two screens. */
  ghost predicate OneScreenPerBox(ss: seq<Screen>) {
    forall i, j :: 0 <= i < j < |ss| && ss[i].boxId.Some? ==> ss[i].boxId != ss[j].boxId
  }

  predicate HasScreen(ss: seq<Screen>, id: int) {
    exists i :: 0 <= i < |ss| && ss[i].screenId == id
  }

  /** Some screen is paired with the box. */
  predicate BoxOnScreen(ss: seq<Screen>, boxId: int) {
    exists i :: 0 <= i < |ss| && ss[i].boxId == Some(boxId)
  }

  predicate IsFree(s: Screen) {
    s.boxId.None?
  }

  /** `i` is the first screen, in table order, with id `id`. */
  ghost predicate FirstWithId(ss: seq<Screen>, id: int, i: int) {
    0 <= i < |ss| && ss[i].screenId == id && forall j :: 0 <= j < i ==> ss[j].screenId != id
  }

  /** `i` is the first screen, in table order, paired with the box. */
  ghost predicate FirstWithBox(ss: seq<Screen>, boxId: int, i: int) {
    0 <= i < |ss| && ss[i].boxId == Some(boxId) && forall j :: 0 <= j < i ==> ss[j].boxId != Some(boxId)
  }

  /** `get(screen_id == id)`: the first screen with the id. */
  function FindScreen(ss: seq<Screen>, id: int): (r: Option<Screen>)
    ensures r.None? <==> !HasScreen(ss, id)
    ensures forall i :: FirstWithId(ss, id, i) ==> r == Some(ss[i])
  {
    if ss == [] then None
    else if ss[0].screenId == id then Some(ss[0])
    else
      assert forall i :: FirstWithId(ss, id, i) ==> FirstWithId(ss[1..], id, i - 1);
      assert HasScreen(ss[1..], id) ==> HasScreen(ss, id);
      FindScreen(ss[1..], id)
  }

  /** `get(box_id == boxId)`: the first screen paired with the box. */
  function ScreenOfBox(ss: seq<Screen>, boxId: int): (r: Option<Screen>)
    ensures r.None? <==> !BoxOnScreen(ss, boxId)
    ensures forall i :: FirstWithBox(ss, boxId, i) ==> r == Some(ss[i])
  {
    if ss == [] then None
    else if ss[0].boxId == Some(boxId) then Some(ss[0])
    else
      assert forall i :: FirstWithBox(ss, boxId, i) ==> FirstWithBox(ss[1..], boxId, i - 1);
      assert BoxOnScreen(ss[1..], boxId) ==> BoxOnScreen(ss, boxId);
      ScreenOfBox(ss[1..], boxId)
  }

  /** `after` is `before` with the screen at `i` paired with the box, and `s` is that screen. */
  ghost predicate PairedAt(before: seq<Screen>, after: seq<Screen>, i: int, boxId: int, s: Screen) {
    0 <= i < |before| && s == before[i].(boxId := Some(boxId)) && after == before[i := s]
  }

  /** The free screens, in table order (`search(box_id == None)`). */
  function FreeScreens(ss: seq<Screen>): (r: seq<Screen>)
    ensures |r| <= |ss|
    ensures forall s :: s in r <==> s in ss && IsFree(s)
  {
    if ss == [] then []
    else
      var init := ss[..|ss| - 1];
      var last := ss[|ss| - 1];
      assert ss == init + [last];
      if IsFree(last) then FreeScreens(init) + [last] else FreeScreens(init)
  }

  /** The table after removing every record with id `id`. */
  function WithoutId(ss: seq<Screen>, id: int): (r: seq<Screen>)
    ensures |r| <= |ss|
    ensures forall s :: s in r <==> s in ss && s.screenId != id
    ensures |r| == |ss| <==> !HasScreen(ss, id)
  {
    if ss == [] then []
    else
      var init := ss[..|ss| - 1];
      var last := ss[|ss| - 1];
      assert ss == init + [last];
      assert HasScreen(ss, id) <==> HasScreen(init, id) || last.screenId == id;
      if last.screenId != id then WithoutId(init, id) + [last] else WithoutId(init, id)
  }

  /** The screen `s` with the given optional fields overwritten (`update_screen`). */
  function Patched(s: Screen, screenNumber: Option<string>, portNumber: Option<string>, vlanNumber: Option<string>): (r: Screen)
    ensures r.screenId == s.screenId && r.boxId == s.boxId
    ensures screenNumber.Some? ==> r.screenNumber == screenNumber
    ensures portNumber.Some? ==> r.portNumber == portNumber.value
    ensures vlanNumber.Some? ==> r.vlanNumber == vlanNumber
    ensures screenNumber.None? && portNumber.None? && vlanNumber.None? ==> r == s
  {
    s.(screenNumber := if screenNumber.Some? then screenNumber else s.screenNumber,
       portNumber := if portNumber.Some? then portNumber.value else s.portNumber,
       vlanNumber := if vlanNumber.Some? then vlanNumber else s.vlanNumber)
  }

  /** `s` with its box cleared if it is `boxId`. */
  function Detached(s: Screen, boxId: int): Screen {
    if s.boxId == Some(boxId) then s.(boxId := None) else s
  }

  /** Filtering out an id keeps the ids unique and the pairing one-to-one. */
  lemma WithoutIdKeeps(ss: seq<Screen>, id: int)
    ensures UniqueIds(ss) ==> UniqueIds(WithoutId(ss, id))
    ensures OneScreenPerBox(ss) ==> OneScreenPerBox(WithoutId(ss, id))
  {
    if UniqueIds(ss) {
      WithoutIdUnique(ss, id);
    }
    if OneScreenPerBox(ss) {
      WithoutIdOnePerBox(ss, id);
    }
  }

  lemma {:induction false} WithoutIdUnique(ss: seq<Screen>, id: int)
    requires UniqueIds(ss)
    ensures UniqueIds(WithoutId(ss, id))
  {
    if ss != [] {
      var init := ss[..|ss| - 1];
      var last := ss[|ss| - 1];
      assert UniqueIds(init);
      WithoutIdUnique(init, id);
      var r0 := WithoutId(init, id);
      if last.screenId != id {
        forall i | 0 <= i < |r0| ensures r0[i].screenId != last.screenId {
          assert r0[i] in init;
          var j :| 0 <= j < |init| && init[j] == r0[i];
          assert ss[j] == init[j];
        }
      }
    }
  }

  lemma {:induction false} WithoutIdOnePerBox(ss: seq<Screen>, id: int)
    requires OneScreenPerBox(ss)
    ensures OneScreenPerBox(WithoutId(ss, id))
  {
    if ss != [] {
      var init := ss[..|ss| - 1];
      var last := ss[|ss| - 1];
      assert OneScreenPerBox(init);
      WithoutIdOnePerBox(init, id);
      var r0 := WithoutId(init, id);
      if last.screenId != id {
        forall i | 0 <= i < |r0| && r0[i].boxId.Some? ensures r0[i].boxId != last.boxId {
          assert r0[i] in init;
          var j :| 0 <= j < |init| && init[j] == r0[i];
          assert ss[j] == init[j];
        }
      }
    }
  }

  class ScreenService {
    var screens: seq<Screen>

    ghost predicate Valid()
      reads this
    {
      UniqueIds(screens)
    }

    constructor ()
      ensures Valid() && screens == []
    {
      screens := [];
    }

    /** `_get_next_screen_id`: one more than the largest id, or 1 for an empty table. */
    method NextScreenId() returns (id: int)
      ensures screens == [] ==> id == 1
      ensures forall i :: 0 <= i < |screens| ==> screens[i].screenId < id
      ensures screens != [] ==> exists i :: 0 <= i < |screens| && screens[i].screenId == id - 1
    {
      if screens == [] {
        return 1;
      }
      var maxId := screens[0].screenId;
      var i := 1;
      while i < |screens|
        invariant 1 <= i <= |screens|
        invariant forall k :: 0 <= k < i ==> screens[k].screenId <= maxId
        invariant exists k :: 0 <= k < i && screens[k].screenId == maxId
      {
        if screens[i].screenId > maxId {
          maxId := screens[i].screenId;
        }
        i := i + 1;
      }
      id := maxId + 1;
    }

    /** `create_screen`: appends one unpaired record under a fresh id. */
    method CreateScreen(portNumber: string, vlanNumber: Option<string>, screenNumber: Option<string>) returns (s: Screen)
      requires Valid()
      modifies this
      ensures Valid()
      ensures screens == old(screens) + [s]
      ensures s == Screen(s.screenId, screenNumber, portNumber, vlanNumber, None)
      ensures old(screens) == [] ==> s.screenId == 1
      ensures forall i :: 0 <= i < |old(screens)| ==> old(screens)[i].screenId < s.screenId
      ensures old(screens) != [] ==> HasScreen(old(screens), s.screenId - 1)
      ensures OneScreenPerBox(old(screens)) ==> OneScreenPerBox(screens)
    {
      var id := NextScreenId();
      s := Screen(id, screenNumber, portNumber, vlanNumber, None);
      screens := screens + [s];
    }

    /** `delete_screen`: removes every record with the id; reports whether there was one. */
    method DeleteScreen(id: int) returns (deleted: bool)
      requires Valid()
      modifies this
      ensures Valid()
      ensures screens == WithoutId(old(screens), id)
      ensures deleted <==> HasScreen(old(screens), id)
      ensures !HasScreen(screens, id)
      ensures OneScreenPerBox(old(screens)) ==> OneScreenPerBox(screens)
    {
      var ss := screens;
      var kept: seq<Screen> := [];
      var i := 0;
      while i < |ss|
        invariant 0 <= i <= |ss|
        invariant kept == WithoutId(ss[..i], id)
      {
        assert ss[..i + 1][..i] == ss[..i];
        if ss[i].screenId != id {
          kept := kept + [ss[i]];
        }
        i := i + 1;
      }
      assert ss[..i] == ss;
      deleted := |kept| < |ss|;
      WithoutIdKeeps(ss, id);
      screens := kept;
    }

    /** `get_screen_by_id`: the first record with the id, if any. */
    method GetScreenById(id: int) returns (r: Option<Screen>)
      ensures r.None? <==> !HasScreen(screens, id)
      ensures r.Some? ==> exists i :: FirstWithId(screens, id, i) && screens[i] == r.value
      ensures r.Some? ==> r.value.screenId == id && r.value in screens
      ensures r == FindScreen(screens, id)
    {
      var i := 0;
      while i < |screens|
        invariant 0 <= i <= |screens|
        invariant forall k :: 0 <= k < i ==> screens[k].screenId != id
      {
        if screens[i].screenId == id {
          assert FirstWithId(screens, id, i);
          return Some(screens[i]);
        }
        i := i + 1;
      }
      return None;
    }

    /** `get_screen_by_box_id`: the first record paired with the box, if any. */
    method GetScreenByBoxId(boxId: int) returns (r: Option<Screen>)
      ensures r.None? <==> !BoxOnScreen(screens, boxId)
      ensures r.Some? ==> exists i :: FirstWithBox(screens, boxId, i) && screens[i] == r.value
      ensures r.Some? ==> r.value.boxId == Some(boxId) && r.value in screens
      ensures r == ScreenOfBox(screens, boxId)
    {
      var i := 0;
      while i < |screens|
        invariant 0 <= i <= |screens|
        invariant forall k :: 0 <= k < i ==> screens[k].boxId != Some(boxId)
      {
        if screens[i].boxId == Some(boxId) {
          assert FirstWithBox(screens, boxId, i);
          return Some(screens[i]);
        }
        i := i + 1;
      }
      return None;
    }

    /** `get_free_screens`: the unpaired records, in table order. */
    method GetFreeScreens() returns (r: seq<Screen>)
      ensures r == FreeScreens(screens)
    {
      r := [];
      var i := 0;
      while i < |screens|
        invariant 0 <= i <= |screens|
        invariant r == FreeScreens(screens[..i])
      {
        assert screens[..i + 1][..i] == screens[..i];
        if IsFree(screens[i]) {
          r := r + [screens[i]];
        }
        i := i + 1;
      }
      assert screens[..i] == screens;
    }

    /** `update({'box_id': boxId}, screen_id == id)`: rewrites the box of every record with the id. */
    method SetBoxWhereId(id: int, boxId: Option<int>)
      requires Valid()
      modifies this
      ensures Valid()
      ensures |screens| == |old(screens)|
      ensures forall i :: 0 <= i < |screens| ==>
        screens[i] == if old(screens)[i].screenId == id then old(screens)[i].(boxId := boxId) else old(screens)[i]
    {
      var i := 0;
      while i < |screens|
        invariant 0 <= i <= |screens| && |screens| == |old(screens)|
        invariant forall k :: 0 <= k < i ==>
          screens[k] == if old(screens)[k].screenId == id then old(screens)[k].(boxId := boxId) else old(screens)[k]
        invariant forall k :: i <= k < |screens| ==> screens[k] == old(screens)[k]
      {
        if screens[i].screenId == id {
          screens := screens[i := screens[i].(boxId := boxId)];
        }
        i := i + 1;
      }
    }

    /** `assign_box_to_screen`: pairs the box with the screen unless the screen
        is missing, holds another box, or the box is already on some screen;
        a screen already holding this box is returned unchanged. */
    method AssignBoxToScreen(boxId: int, screenId: int) returns (r: Option<Screen>)
      requires Valid()
      modifies this
      ensures Valid()
      ensures !HasScreen(old(screens), screenId) ==> r.None?
      ensures forall i :: 0 <= i < |old(screens)| && old(screens)[i].screenId == screenId ==>
        (r.Some? <==> old(screens)[i].boxId == Some(boxId) ||
                      (old(screens)[i].boxId.None? && !BoxOnScreen(old(screens), boxId)))
      ensures forall i :: 0 <= i < |old(screens)| && old(screens)[i].screenId == screenId ==>
        (old(screens)[i].boxId == Some(boxId) ==> r == Some(old(screens)[i]) && screens == old(screens))
      ensures r.None? ==> screens == old(screens)
      ensures r.Some? ==> exists i :: PairedAt(old(screens), screens, i, boxId, r.value) && old(screens)[i].screenId == screenId
      ensures OneScreenPerBox(old(screens)) ==> OneScreenPerBox(screens)
      ensures r.Some? && OneScreenPerBox(old(screens)) ==>
        forall j :: 0 <= j < |screens| && screens[j].screenId != screenId ==> screens[j].boxId != Some(boxId)
    {
      var screen := GetScreenById(screenId);
      if screen.None? {
        return None;
      }
      ghost var i :| FirstWithId(screens, screenId, i) && screens[i] == screen.value;
      if screen.value.boxId == Some(boxId) && screen.value.screenId == screenId {
        assert screens == screens[i := screens[i].(boxId := Some(boxId))];
        return screen;
      }
      if screen.value.boxId.Some? {
        return None;
      }
      var existing := GetScreenByBoxId(boxId);
      if existing.Some? {
        return None;
      }
      SetBoxWhereId(screenId, Some(boxId));
      r := Some(screen.value.(boxId := Some(boxId)));
      assert screens == old(screens)[i := r.value];
    }

    /** `unassign_box_from_screen`: clears the box from every screen paired with
        it; reports whether any was. */
    method UnassignBoxFromScreen(boxId: int) returns (found: bool)
      requires Valid()
      modifies this
      ensures Valid()
      ensures found <==> BoxOnScreen(old(screens), boxId)
      ensures |screens| == |old(screens)|
      ensures forall i :: 0 <= i < |screens| ==> screens[i] == Detached(old(screens)[i], boxId)
      ensures !BoxOnScreen(screens, boxId)
      ensures OneScreenPerBox(old(screens)) ==> OneScreenPerBox(screens)
    {
      var held := GetScreenByBoxId(boxId);
      if held.None? {
        forall i | 0 <= i < |screens| ensures screens[i] == Detached(screens[i], boxId) { }
        return false;
      }
      DetachWhereBox(boxId);
      return true;
    }

    /** `update({'box_id': None}, box_id == boxId)`: clears the box from every screen paired with it. */
    method DetachWhereBox(boxId: int)
      requires Valid()
      modifies this
      ensures Valid()
      ensures |screens| == |old(screens)|
      ensures forall i :: 0 <= i < |screens| ==> screens[i] == Detached(old(screens)[i], boxId)
    {
      var i := 0;
      while i < |screens|
        invariant 0 <= i <= |screens| && |screens| == |old(screens)|
        invariant forall k :: 0 <= k < i ==> screens[k] == Detached(old(screens)[k], boxId)
        invariant forall k :: i <= k < |screens| ==> screens[k] == old(screens)[k]
      {
        if screens[i].boxId == Some(boxId) {
          screens := screens[i := screens[i].(boxId := None)];
        }
        i := i + 1;
      }
    }

    /** `unassign_screen`: None for an unknown screen, false for an unpaired
        one, true (and the pairing cleared) for a paired one. */
    method UnassignScreen(id: int) returns (r: Option<bool>)
      requires Valid()
      modifies this
      ensures Valid()
      ensures r.None? <==> !HasScreen(old(screens), id)
      ensures forall i :: 0 <= i < |old(screens)| && old(screens)[i].screenId == id ==>
        r == Some(old(screens)[i].boxId.Some?) &&
        screens == old(screens)[i := old(screens)[i].(boxId := None)]
      ensures r != Some(true) ==> screens == old(screens)
      ensures OneScreenPerBox(old(screens)) ==> OneScreenPerBox(screens)
    {
      var screen := GetScreenById(id);
      if screen.None? {
        return None;
      }
      ghost var i :| FirstWithId(screens, id, i) && screens[i] == screen.value;
      if screen.value.boxId.None? {
        assert screens == screens[i := screens[i].(boxId := None)];
        return Some(false);
      }
      SetBoxWhereId(id, None);
      assert screens == old(screens)[i := old(screens)[i].(boxId := None)];
      return Some(true);
    }

    /** `update(fields, screen_id == id)`: patches every record with the id. */
    method PatchWhereId(id: int, screenNumber: Option<string>, portNumber: Option<string>, vlanNumber: Option<string>)
      requires Valid()
      modifies this
      ensures Valid()
      ensures |screens| == |old(screens)|
      ensures forall i :: 0 <= i < |screens| ==>
        screens[i] == if old(screens)[i].screenId == id then Patched(old(screens)[i], screenNumber, portNumber, vlanNumber) else old(screens)[i]
    {
      var k := 0;
      while k < |screens|
        invariant 0 <= k <= |screens| && |screens| == |old(screens)|
        invariant forall j :: 0 <= j < k ==>
          screens[j] == if old(screens)[j].screenId == id then Patched(old(screens)[j], screenNumber, portNumber, vlanNumber) else old(screens)[j]
        invariant forall j :: k <= j < |screens| ==> screens[j] == old(screens)[j]
      {
        if screens[k].screenId == id {
          screens := screens[k := Patched(screens[k], screenNumber, portNumber, vlanNumber)];
        }
        k := k + 1;
      }
    }

    /** `update_screen`: overwrites the fields given, never the pairing; None for an unknown screen. */
    method UpdateScreen(id: int, screenNumber: Option<string>, portNumber: Option<string>, vlanNumber: Option<string>)
      returns (r: Option<Screen>)
      requires Valid()
      modifies this
      ensures Valid()
      ensures r.None? <==> !HasScreen(old(screens), id)
      ensures r.None? ==> screens == old(screens)
      ensures screenNumber.None? && portNumber.None? && vlanNumber.None? ==> screens == old(screens)
      ensures forall i :: 0 <= i < |old(screens)| && old(screens)[i].screenId == id ==>
        r == Some(Patched(old(screens)[i], screenNumber, portNumber, vlanNumber)) &&
        screens == old(screens)[i := r.value]
      ensures |screens| == |old(screens)| && forall i :: 0 <= i < |screens| ==> screens[i].boxId == old(screens)[i].boxId
      ensures OneScreenPerBox(old(screens)) ==> OneScreenPerBox(screens)
    {
      var screen := GetScreenById(id);
      if screen.None? {
        return None;
      }
      ghost var i :| FirstWithId(screens, id, i) && screens[i] == screen.value;
      if screenNumber.None? && portNumber.None? && vlanNumber.None? {
        assert screens == screens[i := Patched(screens[i], screenNumber, portNumber, vlanNumber)];
        return screen;
      }
      PatchWhereId(id, screenNumber, portNumber, vlanNumber);
      assert screens == old(screens)[i := Patched(old(screens)[i], screenNumber, portNumber, vlanNumber)];
      r := GetScreenById(id);
    }
  }
}
