/** The box table: records of user-claimable device ports, the ids they are
    allocated, and the binding of users to boxes. Every TinyDB query over the
    table becomes a loop over the `boxes` sequence: a search returns the first
    match in table order, an update rewrites every matching record. */
module BoxStore {
  import opened Common

  datatype Box = Box(
    boxId: int,
    boxNumber: string,
    portNumber: string,
    vlanNumber: Option<string>,
    userId: Option<string>)

  /** No two records share an id. */
  ghost predicate UniqueIds(bs: seq<Box>) {
    forall i, j :: 0 <= i < j < |bs| ==> bs[i].boxId != bs[j].boxId
  }

  /** No user holds two boxes. */
  ghost predicate OneBoxPerUser(bs: seq<Box>) {
    forall i, j :: 0 <= i < j < |bs| && bs[i].userId.Some? ==> bs[i].userId != bs[j].userId
  }

  predicate HasId(bs: seq<Box>, id: int) {
    exists i :: 0 <= i < |bs| && bs[i].boxId == id
  }

  predicate HeldBy(bs: seq<Box>, user: string) {
    exists i :: 0 <= i < |bs| && bs[i].userId == Some(user)
  }

  predicate IsFree(b: Box) {
    b.userId.None?
  }

  /** `i` is the first box, in table order, with id `id`. */
  ghost predicate FirstWithId(bs: seq<Box>, id: int, i: int) {
    0 <= i < |bs| && bs[i].boxId == id && forall j :: 0 <= j < i ==> bs[j].boxId != id
  }

  /** `i` is the first box, in table order, held by `user`. */
  ghost predicate FirstWithUser(bs: seq<Box>, user: string, i: int) {
    0 <= i < |bs| && bs[i].userId == Some(user) && forall j :: 0 <= j < i ==> bs[j].userId != Some(user)
  }

  /** `i` is the first free box in table order. */
  ghost predicate FirstFree(bs: seq<Box>, i: int) {
    0 <= i < |bs| && IsFree(bs[i]) && forall j :: 0 <= j < i ==> !IsFree(bs[j])
  }

  /** `get(box_id == id)`: the first box with the id. */
  function FindBox(bs: seq<Box>, id: int): (r: Option<Box>)
    ensures r.None? <==> !HasId(bs, id)
    ensures forall i :: FirstWithId(bs, id, i) ==> r == Some(bs[i])
  {
    if bs == [] then None
    else if bs[0].boxId == id then Some(bs[0])
    else
      assert forall i :: FirstWithId(bs, id, i) ==> FirstWithId(bs[1..], id, i - 1);
      assert HasId(bs[1..], id) ==> HasId(bs, id);
      FindBox(bs[1..], id)
  }

  /** `get(user_id == user)`: the first box held by the user. */
  function FindUserBox(bs: seq<Box>, user: string): (r: Option<Box>)
    ensures r.None? <==> !HeldBy(bs, user)
    ensures forall i :: FirstWithUser(bs, user, i) ==> r == Some(bs[i])
  {
    if bs == [] then None
    else if bs[0].userId == Some(user) then Some(bs[0])
    else
      assert forall i :: FirstWithUser(bs, user, i) ==> FirstWithUser(bs[1..], user, i - 1);
      assert HeldBy(bs[1..], user) ==> HeldBy(bs, user);
      FindUserBox(bs[1..], user)
  }

  /** The free boxes, in table order (`search(user_id == None)`). */
  function FreeBoxes(bs: seq<Box>): (r: seq<Box>)
    ensures |r| <= |bs|
    ensures forall b :: b in r <==> b in bs && IsFree(b)
    ensures r == [] <==> forall i :: 0 <= i < |bs| ==> !IsFree(bs[i])
    ensures r != [] ==> exists i :: FirstFree(bs, i) && r[0] == bs[i]
  {
    if bs == [] then []
    else
      var rest := FreeBoxes(bs[..|bs| - 1]);
      var last := bs[|bs| - 1];
      assert bs == bs[..|bs| - 1] + [last];
      if IsFree(last) then
        assert rest == [] ==> FirstFree(bs, |bs| - 1);
        assert forall i :: FirstFree(bs[..|bs| - 1], i) ==> FirstFree(bs, i);
        rest + [last]
      else
        assert forall i :: FirstFree(bs[..|bs| - 1], i) ==> FirstFree(bs, i);
        rest
  }

  /** The table after removing every record with id `id`. */
  function WithoutId(bs: seq<Box>, id: int): (r: seq<Box>)
    ensures |r| <= |bs|
    ensures forall b :: b in r <==> b in bs && b.boxId != id
    ensures |r| == |bs| <==> !HasId(bs, id)
  {
    if bs == [] then []
    else
      var init := bs[..|bs| - 1];
      var last := bs[|bs| - 1];
      assert bs == init + [last];
      assert HasId(bs, id) <==> HasId(init, id) || last.boxId == id;
      if last.boxId != id then WithoutId(init, id) + [last] else WithoutId(init, id)
  }

  /** The box `b` with the given optional fields overwritten (`update_box`). */
  function Patched(b: Box, boxNumber: Option<string>, portNumber: Option<string>, vlanNumber: Option<string>): (r: Box)
    ensures r.boxId == b.boxId && r.userId == b.userId
    ensures boxNumber.Some? ==> r.boxNumber == boxNumber.value
    ensures portNumber.Some? ==> r.portNumber == portNumber.value
    ensures vlanNumber.Some? ==> r.vlanNumber == vlanNumber
    ensures boxNumber.None? && portNumber.None? && vlanNumber.None? ==> r == b
  {
    b.(boxNumber := if boxNumber.Some? then boxNumber.value else b.boxNumber,
       portNumber := if portNumber.Some? then portNumber.value else b.portNumber,
       vlanNumber := if vlanNumber.Some? then vlanNumber else b.vlanNumber)
  }

  /** `b` with its user cleared if it is `user`. */
  function Released(b: Box, user: string): Box {
    if b.userId == Some(user) then b.(userId := None) else b
  }

  /** The table after `update({'user_id': None}, user_id == user)`. */
  function Cleared(bs: seq<Box>, user: string): (r: seq<Box>)
    ensures |r| == |bs|
    ensures forall i :: 0 <= i < |bs| ==> r[i] == Released(bs[i], user)
  {
    seq(|bs|, i requires 0 <= i < |bs| => Released(bs[i], user))
  }

  /** `after` is `before` with the free box at `i` now held by `user`, and `b` is that box. */
  ghost predicate BoundAt(before: seq<Box>, after: seq<Box>, i: int, user: string, b: Box) {
    0 <= i < |before| && before[i].userId.None? &&
    b == before[i].(userId := Some(user)) && after == before[i := b]
  }

  /** Binding a free box to a user who holds no box keeps one box per user. */
  lemma BindKeepsOne(before: seq<Box>, after: seq<Box>, i: int, user: string, b: Box)
    requires BoundAt(before, after, i, user, b) && OneBoxPerUser(before) && !HeldBy(before, user)
    ensures OneBoxPerUser(after)
  {
    forall j, k | 0 <= j < k < |after| && after[j].userId.Some?
      ensures after[j].userId != after[k].userId
    {
      if j == i {
        assert after[k] == before[k] && before[k].userId != Some(user);
      } else if k == i {
        assert after[j] == before[j] && before[j].userId != Some(user);
      } else {
        assert after[j] == before[j] && after[k] == before[k];
      }
    }
  }

  /** Binding a free box to a user who already holds one leaves that user with two. */
  lemma BindBreaksOne(before: seq<Box>, after: seq<Box>, i: int, user: string, b: Box)
    requires BoundAt(before, after, i, user, b) && HeldBy(before, user)
    ensures !OneBoxPerUser(after)
  {
    var j :| 0 <= j < |before| && before[j].userId == Some(user);
    assert j != i;
    assert after[j].userId == Some(user) == after[i].userId;
    if j < i {
      assert !(after[j].userId != after[i].userId);
    } else {
      assert !(after[i].userId != after[j].userId);
    }
  }

  class BoxService {
    var boxes: seq<Box>

    ghost predicate Valid()
      reads this
    {
      UniqueIds(boxes)
    }

    constructor ()
      ensures Valid() && boxes == []
    {
      boxes := [];
    }

    /** `_get_next_box_id`: one more than the largest id, or 1 for an empty table. */
    method NextBoxId() returns (id: int)
      ensures boxes == [] ==> id == 1
      ensures forall i :: 0 <= i < |boxes| ==> boxes[i].boxId < id
      ensures boxes != [] ==> exists i :: 0 <= i < |boxes| && boxes[i].boxId == id - 1
    {
      if boxes == [] {
        return 1;
      }
      var maxId := boxes[0].boxId;
      var i := 1;
      while i < |boxes|
        invariant 1 <= i <= |boxes|
        invariant forall k :: 0 <= k < i ==> boxes[k].boxId <= maxId
        invariant exists k :: 0 <= k < i && boxes[k].boxId == maxId
      {
        if boxes[i].boxId > maxId {
          maxId := boxes[i].boxId;
        }
        i := i + 1;
      }
      id := maxId + 1;
    }

    /** `create_box`: appends one free record under a fresh id. */
    method CreateBox(portNumber: string, boxNumber: string, vlanNumber: Option<string>) returns (b: Box)
      requires Valid()
      modifies this
      ensures Valid()
      ensures boxes == old(boxes) + [b]
      ensures b == Box(b.boxId, boxNumber, portNumber, vlanNumber, None)
      ensures old(boxes) == [] ==> b.boxId == 1
      ensures forall i :: 0 <= i < |old(boxes)| ==> old(boxes)[i].boxId < b.boxId
      ensures old(boxes) != [] ==> HasId(old(boxes), b.boxId - 1)
      ensures OneBoxPerUser(old(boxes)) ==> OneBoxPerUser(boxes)
    {
      var id := NextBoxId();
      b := Box(id, boxNumber, portNumber, vlanNumber, None);
      boxes := boxes + [b];
    }

    /** `delete_box`: removes every record with the id; reports whether there was one. */
    method DeleteBox(id: int) returns (deleted: bool)
      requires Valid()
      modifies this
      ensures Valid()
      ensures boxes == WithoutId(old(boxes), id)
      ensures deleted <==> HasId(old(boxes), id)
      ensures !HasId(boxes, id)
      ensures OneBoxPerUser(old(boxes)) ==> OneBoxPerUser(boxes)
    {
      var bs := boxes;
      var kept: seq<Box> := [];
      var i := 0;
      while i < |bs|
        invariant 0 <= i <= |bs|
        invariant kept == WithoutId(bs[..i], id)
      {
        assert bs[..i + 1][..i] == bs[..i];
        if bs[i].boxId != id {
          kept := kept + [bs[i]];
        }
        i := i + 1;
      }
      assert bs[..i] == bs;
      deleted := |kept| < |bs|;
      SubsequenceKeeps(bs, id);
      boxes := kept;
    }

    /** `get_box_by_id`: the first record with the id, if any. */
    method GetBoxById(id: int) returns (r: Option<Box>)
      ensures r.None? <==> !HasId(boxes, id)
      ensures r.Some? ==> exists i :: FirstWithId(boxes, id, i) && boxes[i] == r.value
      ensures r.Some? ==> r.value.boxId == id && r.value in boxes
      ensures r == FindBox(boxes, id)
    {
      var i := 0;
      while i < |boxes|
        invariant 0 <= i <= |boxes|
        invariant forall k :: 0 <= k < i ==> boxes[k].boxId != id
      {
        if boxes[i].boxId == id {
          assert FirstWithId(boxes, id, i);
          return Some(boxes[i]);
        }
        i := i + 1;
      }
      return None;
    }

    /** `get_box_by_user_id`: the first record held by the user, if any. */
    method GetBoxByUserId(user: string) returns (r: Option<Box>)
      ensures r.None? <==> !HeldBy(boxes, user)
      ensures r.Some? ==> exists i :: FirstWithUser(boxes, user, i) && boxes[i] == r.value
      ensures r.Some? ==> r.value.userId == Some(user) && r.value in boxes
      ensures r == FindUserBox(boxes, user)
    {
      var i := 0;
      while i < |boxes|
        invariant 0 <= i <= |boxes|
        invariant forall k :: 0 <= k < i ==> boxes[k].userId != Some(user)
      {
        if boxes[i].userId == Some(user) {
          assert FirstWithUser(boxes, user, i);
          return Some(boxes[i]);
        }
        i := i + 1;
      }
      return None;
    }

    /** `get_free_boxes`: the records with no user, in table order. */
    method GetFreeBoxes() returns (r: seq<Box>)
      ensures r == FreeBoxes(boxes)
    {
      r := [];
      var i := 0;
      while i < |boxes|
        invariant 0 <= i <= |boxes|
        invariant r == FreeBoxes(boxes[..i])
      {
        assert boxes[..i + 1][..i] == boxes[..i];
        if IsFree(boxes[i]) {
          r := r + [boxes[i]];
        }
        i := i + 1;
      }
      assert boxes[..i] == boxes;
    }

    /** `update({'user_id': user}, box_id == id)`: rewrites the user of every record with the id. */
    method SetUserWhereId(id: int, user: Option<string>)
      requires Valid()
      modifies this
      ensures Valid()
      ensures |boxes| == |old(boxes)|
      ensures forall i :: 0 <= i < |boxes| ==>
        boxes[i] == if old(boxes)[i].boxId == id then old(boxes)[i].(userId := user) else old(boxes)[i]
    {
      var i := 0;
      while i < |boxes|
        invariant 0 <= i <= |boxes| && |boxes| == |old(boxes)|
        invariant forall k :: 0 <= k < i ==>
          boxes[k] == if old(boxes)[k].boxId == id then old(boxes)[k].(userId := user) else old(boxes)[k]
        invariant forall k :: i <= k < |boxes| ==> boxes[k] == old(boxes)[k]
      {
        if boxes[i].boxId == id {
          boxes := boxes[i := boxes[i].(userId := user)];
        }
        i := i + 1;
      }
    }

    /** `update(fields, box_id == id)`: patches every record with the id. */
    method PatchWhereId(id: int, boxNumber: Option<string>, portNumber: Option<string>, vlanNumber: Option<string>)
      requires Valid()
      modifies this
      ensures Valid()
      ensures |boxes| == |old(boxes)|
      ensures forall i :: 0 <= i < |boxes| ==>
        boxes[i] == if old(boxes)[i].boxId == id then Patched(old(boxes)[i], boxNumber, portNumber, vlanNumber) else old(boxes)[i]
    {
      var k := 0;
      while k < |boxes|
        invariant 0 <= k <= |boxes| && |boxes| == |old(boxes)|
        invariant forall j :: 0 <= j < k ==>
          boxes[j] == if old(boxes)[j].boxId == id then Patched(old(boxes)[j], boxNumber, portNumber, vlanNumber) else old(boxes)[j]
        invariant forall j :: k <= j < |boxes| ==> boxes[j] == old(boxes)[j]
      {
        if boxes[k].boxId == id {
          boxes := boxes[k := Patched(boxes[k], boxNumber, portNumber, vlanNumber)];
        }
        k := k + 1;
      }
    }

    /** `assign_user_to_box`: binds the user to the box only when the box exists
        and has no user at all, the same user included. */
    method AssignUserToBox(user: string, id: int) returns (r: Option<Box>)
      requires Valid()
      modifies this
      ensures Valid()
      ensures !HasId(old(boxes), id) ==> r.None?
      ensures forall i :: 0 <= i < |old(boxes)| && old(boxes)[i].boxId == id ==>
        (r.None? <==> old(boxes)[i].userId.Some?)
      ensures r.None? ==> boxes == old(boxes)
      ensures r.Some? ==> exists i :: BoundAt(old(boxes), boxes, i, user, r.value) && old(boxes)[i].boxId == id
      ensures OneBoxPerUser(old(boxes)) && !HeldBy(old(boxes), user) ==> OneBoxPerUser(boxes)
      ensures r.Some? && HeldBy(old(boxes), user) ==> !OneBoxPerUser(boxes)
    {
      var box := GetBoxById(id);
      if box.None? {
        return None;
      }
      if box.value.userId.Some? {
        return None;
      }
      ghost var i :| FirstWithId(boxes, id, i) && boxes[i] == box.value;
      SetUserWhereId(id, Some(user));
      r := Some(box.value.(userId := Some(user)));
      assert boxes == old(boxes)[i := r.value];
      if OneBoxPerUser(old(boxes)) && !HeldBy(old(boxes), user) {
        BindKeepsOne(old(boxes), boxes, i, user, r.value);
      }
      if HeldBy(old(boxes), user) {
        BindBreaksOne(old(boxes), boxes, i, user, r.value);
      }
    }

    /** `assign_user_to_any_free_box`: binds the user to the first free box in table order. */
    method AssignUserToAnyFreeBox(user: string) returns (r: Option<Box>)
      requires Valid()
      modifies this
      ensures Valid()
      ensures r.None? <==> forall i :: 0 <= i < |old(boxes)| ==> !IsFree(old(boxes)[i])
      ensures r.None? ==> boxes == old(boxes)
      ensures r.Some? ==> exists i :: FirstFree(old(boxes), i) && BoundAt(old(boxes), boxes, i, user, r.value)
      ensures OneBoxPerUser(old(boxes)) && !HeldBy(old(boxes), user) ==> OneBoxPerUser(boxes)
      ensures r.Some? && HeldBy(old(boxes), user) ==> !OneBoxPerUser(boxes)
    {
      var free := GetFreeBoxes();
      if free == [] {
        return None;
      }
      var box := free[0];
      ghost var i :| FirstFree(boxes, i) && free[0] == boxes[i];
      SetUserWhereId(box.boxId, Some(user));
      r := Some(box.(userId := Some(user)));
      assert boxes == old(boxes)[i := r.value];
      if OneBoxPerUser(old(boxes)) && !HeldBy(old(boxes), user) {
        BindKeepsOne(old(boxes), boxes, i, user, r.value);
      }
      if HeldBy(old(boxes), user) {
        BindBreaksOne(old(boxes), boxes, i, user, r.value);
      }
    }

    /** `update({'user_id': None}, user_id == user)`, which is all of
        `unassign_user_if_exists`: afterwards no box references the user. */
    method UnassignUserIfExists(user: string)
      requires Valid()
      modifies this
      ensures Valid()
      ensures |boxes| == |old(boxes)|
      ensures forall i :: 0 <= i < |boxes| ==> boxes[i] == Released(old(boxes)[i], user)
      ensures !HeldBy(boxes, user)
      ensures OneBoxPerUser(old(boxes)) ==> OneBoxPerUser(boxes)
    {
      var i := 0;
      while i < |boxes|
        invariant 0 <= i <= |boxes| && |boxes| == |old(boxes)|
        invariant forall k :: 0 <= k < i ==> boxes[k] == Released(old(boxes)[k], user)
        invariant forall k :: i <= k < |boxes| ==> boxes[k] == old(boxes)[k]
      {
        if boxes[i].userId == Some(user) {
          boxes := boxes[i := boxes[i].(userId := None)];
        }
        i := i + 1;
      }
    }

    /** `unassign_user_from_box`: like `unassign_user_if_exists`, but reports
        whether the user held any box. */
    method UnassignUserFromBox(user: string) returns (found: bool)
      requires Valid()
      modifies this
      ensures Valid()
      ensures found <==> HeldBy(old(boxes), user)
      ensures |boxes| == |old(boxes)|
      ensures forall i :: 0 <= i < |boxes| ==> boxes[i] == Released(old(boxes)[i], user)
      ensures !HeldBy(boxes, user)
      ensures OneBoxPerUser(old(boxes)) ==> OneBoxPerUser(boxes)
    {
      var held := GetBoxByUserId(user);
      if held.None? {
        forall i | 0 <= i < |boxes| ensures boxes[i] == Released(boxes[i], user) { }
        return false;
      }
      UnassignUserIfExists(user);
      return true;
    }

    /** `unassign_box`: None for an unknown box, false for a free one, true
        (and the user cleared) for a held one. */
    method UnassignBox(id: int) returns (r: Option<bool>)
      requires Valid()
      modifies this
      ensures Valid()
      ensures r.None? <==> !HasId(old(boxes), id)
      ensures forall i :: 0 <= i < |old(boxes)| && old(boxes)[i].boxId == id ==>
        r == Some(old(boxes)[i].userId.Some?) &&
        boxes == old(boxes)[i := old(boxes)[i].(userId := None)]
      ensures r != Some(true) ==> boxes == old(boxes)
      ensures OneBoxPerUser(old(boxes)) ==> OneBoxPerUser(boxes)
    {
      var box := GetBoxById(id);
      if box.None? {
        return None;
      }
      ghost var i :| FirstWithId(boxes, id, i) && boxes[i] == box.value;
      if box.value.userId.None? {
        assert boxes == boxes[i := boxes[i].(userId := None)];
        return Some(false);
      }
      SetUserWhereId(id, None);
      assert boxes == old(boxes)[i := old(boxes)[i].(userId := None)];
      return Some(true);
    }

    /** `update_box`: overwrites the fields given, never the user; None for an unknown box. */
    method UpdateBox(id: int, boxNumber: Option<string>, portNumber: Option<string>, vlanNumber: Option<string>)
      returns (r: Option<Box>)
      requires Valid()
      modifies this
      ensures Valid()
      ensures r.None? <==> !HasId(old(boxes), id)
      ensures r.None? ==> boxes == old(boxes)
      ensures boxNumber.None? && portNumber.None? && vlanNumber.None? ==> boxes == old(boxes)
      ensures forall i :: 0 <= i < |old(boxes)| && old(boxes)[i].boxId == id ==>
        r == Some(Patched(old(boxes)[i], boxNumber, portNumber, vlanNumber)) &&
        boxes == old(boxes)[i := r.value]
      ensures |boxes| == |old(boxes)| && forall i :: 0 <= i < |boxes| ==> boxes[i].userId == old(boxes)[i].userId
      ensures OneBoxPerUser(old(boxes)) ==> OneBoxPerUser(boxes)
    {
      var box := GetBoxById(id);
      if box.None? {
        return None;
      }
      ghost var i :| FirstWithId(boxes, id, i) && boxes[i] == box.value;
      if boxNumber.None? && portNumber.None? && vlanNumber.None? {
        assert boxes == boxes[i := Patched(boxes[i], boxNumber, portNumber, vlanNumber)];
        return box;
      }
      PatchWhereId(id, boxNumber, portNumber, vlanNumber);
      assert boxes == old(boxes)[i := Patched(old(boxes)[i], boxNumber, portNumber, vlanNumber)];
      r := GetBoxById(id);
    }
  }

  /** Filtering out an id removes it and keeps unique ids and the one-box-per-user rule. */
  lemma SubsequenceKeeps(bs: seq<Box>, id: int)
    ensures !HasId(WithoutId(bs, id), id)
    ensures UniqueIds(bs) ==> UniqueIds(WithoutId(bs, id))
    ensures OneBoxPerUser(bs) ==> OneBoxPerUser(WithoutId(bs, id))
  {
    var kept := WithoutId(bs, id);
    forall j | 0 <= j < |kept| ensures kept[j].boxId != id {
      assert kept[j] in kept;
    }
    if UniqueIds(bs) {
      WithoutIdUnique(bs, id);
    }
    if OneBoxPerUser(bs) {
      WithoutIdOnePerUser(bs, id);
    }
  }

  lemma {:induction false} WithoutIdUnique(bs: seq<Box>, id: int)
    requires UniqueIds(bs)
    ensures UniqueIds(WithoutId(bs, id))
  {
    if bs != [] {
      var init := bs[..|bs| - 1];
      var last := bs[|bs| - 1];
      assert UniqueIds(init);
      WithoutIdUnique(init, id);
      var r0 := WithoutId(init, id);
      if last.boxId != id {
        forall i | 0 <= i < |r0| ensures r0[i].boxId != last.boxId {
          assert r0[i] in init;
          var j :| 0 <= j < |init| && init[j] == r0[i];
          assert bs[j] == init[j];
        }
      }
    }
  }

  lemma {:induction false} WithoutIdOnePerUser(bs: seq<Box>, id: int)
    requires OneBoxPerUser(bs)
    ensures OneBoxPerUser(WithoutId(bs, id))
  {
    if bs != [] {
      var init := bs[..|bs| - 1];
      var last := bs[|bs| - 1];
      assert OneBoxPerUser(init);
      WithoutIdOnePerUser(init, id);
      var r0 := WithoutId(init, id);
      if last.boxId != id {
        forall i | 0 <= i < |r0| && r0[i].userId.Some? ensures r0[i].userId != last.userId {
          assert r0[i] in init;
          var j :| 0 <= j < |init| && init[j] == r0[i];
          assert bs[j] == init[j];
        }
      }
    }
  }
}
