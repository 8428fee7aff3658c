/** The HTTP handlers that tie the two tables to the switch. Each handler is
    a method of `Server` that returns the HTTP status it answers with. The
    stores are changed in a fixed order and never rolled back; a switch
    request is made only while the worker is connected, lands in the worker's
    `portCalls`, and changes neither the tables nor the status. */
module App {
  import opened Common
  import BoxStore
  import ScreenStore
  import Switch

  const OK: int := 200
  const BadRequest: int := 400
  const NotFound: int := 404
  const ServerError: int := 500

  /** Python truthiness of an optional id: present and not zero. */
  predicate IdGiven(o: Option<int>) {
    o.Some? && o.value != 0
  }

  /** The reset of a box port when the box leaves a screen: back to the
      box's own VLAN, or the default one. */
  function ResetCall(b: BoxStore.Box, defaultVlan: string, connected: bool): seq<Switch.PortCall> {
    if connected && b.portNumber != "" then [Switch.PortCall(b.portNumber, OrElse(b.vlanNumber, defaultVlan))] else []
  }

  /** The request that puts a screen port into a box's VLAN, when both are set. */
  function PairCall(port: string, vlan: Option<string>, connected: bool): seq<Switch.PortCall> {
    if connected && port != "" && Truthy(vlan) then [Switch.PortCall(port, vlan.value)] else []
  }

  /** The box a screen held before being given box `boxId`, when that is
      another box and it is still in the table. */
  function DisplacedBox(s: ScreenStore.Screen, bs: seq<BoxStore.Box>, boxId: int): Option<BoxStore.Box> {
    if Displaces(s, boxId) then BoxStore.FindBox(bs, s.boxId.value) else None
  }

  /** Box `b` sits on a screen other than `screenId`. */
  predicate OnOtherScreen(ss: seq<ScreenStore.Screen>, b: BoxStore.Box, screenId: int) {
    ScreenStore.ScreenOfBox(ss, b.boxId).Some? && ScreenStore.ScreenOfBox(ss, b.boxId).value.screenId != screenId
  }

  /** Screen `s` holds a box other than `boxId`. */
  predicate Displaces(s: ScreenStore.Screen, boxId: int) {
    s.boxId.Some? && s.boxId != Some(boxId)
  }

  /** The screen `ScreenOfBox` finds is the first one, in table order, holding the box. */
  lemma {:induction false} ScreenOfBoxAt(ss: seq<ScreenStore.Screen>, boxId: int) returns (i: int)
    requires ScreenStore.BoxOnScreen(ss, boxId)
    ensures ScreenStore.FirstWithBox(ss, boxId, i) && ScreenStore.ScreenOfBox(ss, boxId) == Some(ss[i])
    decreases |ss|
  {
    if ss[0].boxId == Some(boxId) {
      return 0;
    }
    var w :| 0 <= w < |ss| && ss[w].boxId == Some(boxId);
    assert ss[1..][w - 1].boxId == Some(boxId);
    var i' := ScreenOfBoxAt(ss[1..], boxId);
    i := i' + 1;
  }

  /** Every screen's pairing with the box cleared (`update(box_id=None)`
      over the screens holding it). */
  function DetachedAll(ss: seq<ScreenStore.Screen>, boxId: int): (r: seq<ScreenStore.Screen>)
    ensures |r| == |ss|
    ensures forall i :: 0 <= i < |ss| ==> r[i] == ScreenStore.Detached(ss[i], boxId)
    ensures !ScreenStore.BoxOnScreen(r, boxId)
  {
    seq(|ss|, i requires 0 <= i < |ss| => ScreenStore.Detached(ss[i], boxId))
  }

  /** The two releases of `assign_user_to_screen` leave the screen either
      free or already holding the box, with no screen holding it otherwise, so
      the pairing that follows succeeds. Freeing the screen first does not
      change whether the box sits on another screen. */
  lemma {:induction false} ReleasesMakeRoom(ss: seq<ScreenStore.Screen>, s1: seq<ScreenStore.Screen>, s2: seq<ScreenStore.Screen>,
                                            k: int, b: BoxStore.Box)
    requires ScreenStore.UniqueIds(ss) && 0 <= k < |ss|
    requires s1 == if Displaces(ss[k], b.boxId) then ss[k := ss[k].(boxId := None)] else ss
    requires s2 == if OnOtherScreen(s1, b, ss[k].screenId) then DetachedAll(s1, b.boxId) else s1
    ensures OnOtherScreen(s1, b, ss[k].screenId) == OnOtherScreen(ss, b, ss[k].screenId)
    ensures RoomFor(ss, s2, k, b.boxId)
  {
    var bid := b.boxId;
    var sid := ss[k].screenId;
    assert forall i :: 0 <= i < |ss| ==> s1[i].screenId == ss[i].screenId && (s1[i].boxId == Some(bid) <==> ss[i].boxId == Some(bid));
    if ScreenStore.BoxOnScreen(ss, bid) {
      var i := ScreenOfBoxAt(ss, bid);
      assert ScreenStore.FirstWithBox(s1, bid, i);
    } else {
      assert !ScreenStore.BoxOnScreen(s1, bid);
    }
    if ScreenStore.BoxOnScreen(s1, bid) {
      var i := ScreenOfBoxAt(s1, bid);
      assert s1[i].screenId == sid ==> i == k;
    }
  }

  /** The screen table after both releases of `assign_user_to_screen` for
      the screen at `k`: the screen lets go of another box, then the box
      leaves every screen if it sits on another one. */
  function ReleasedTable(ss: seq<ScreenStore.Screen>, k: int, b: BoxStore.Box): seq<ScreenStore.Screen>
    requires 0 <= k < |ss|
  {
    var s1 := if Displaces(ss[k], b.boxId) then ss[k := ss[k].(boxId := None)] else ss;
    if OnOtherScreen(s1, b, ss[k].screenId) then DetachedAll(s1, b.boxId) else s1
  }

  /** The screen table once `assign_user_to_screen` has paired the box with
      the screen at `k`. */
  function PairedTable(ss: seq<ScreenStore.Screen>, k: int, b: BoxStore.Box): seq<ScreenStore.Screen>
    requires 0 <= k < |ss|
  {
    var s2 := ReleasedTable(ss, k, b);
    assert |s2| == |ss|;
    s2[k := s2[k].(boxId := Some(b.boxId))]
  }

  /** On a one-to-one table, moving a box onto the screen at `k` pairs that
      screen with it and changes every other screen only by clearing the box
      from it. */
  lemma PairedTableFrame(ss: seq<ScreenStore.Screen>, k: int, b: BoxStore.Box)
    requires ScreenStore.UniqueIds(ss) && ScreenStore.OneScreenPerBox(ss) && 0 <= k < |ss|
    ensures |PairedTable(ss, k, b)| == |ss|
    ensures PairedTable(ss, k, b)[k] == ss[k].(boxId := Some(b.boxId))
    ensures forall j :: 0 <= j < |ss| && j != k ==> PairedTable(ss, k, b)[j] == ScreenStore.Detached(ss[j], b.boxId)
  {
    var bid := b.boxId;
    var s1 := if Displaces(ss[k], bid) then ss[k := ss[k].(boxId := None)] else ss;
    if !OnOtherScreen(s1, b, ss[k].screenId) {
      forall j | 0 <= j < |ss| && j != k ensures ss[j].boxId != Some(bid) {
        if ss[j].boxId == Some(bid) {
          var i := ScreenOfBoxAt(s1, bid);
        }
      }
    }
  }

  /** The reset of the box a screen gives up, if any. */
  function DisplacedCalls(s: ScreenStore.Screen, bs: seq<BoxStore.Box>, boxId: int, defaultVlan: string, connected: bool): seq<Switch.PortCall> {
    if DisplacedBox(s, bs, boxId).Some? then ResetCall(DisplacedBox(s, bs, boxId).value, defaultVlan, connected) else []
  }

  /** The reset of a box that leaves another screen, if it does. */
  function MovedCalls(ss: seq<ScreenStore.Screen>, b: BoxStore.Box, screenId: int, defaultVlan: string, connected: bool): seq<Switch.PortCall> {
    if OnOtherScreen(ss, b, screenId) then ResetCall(b, defaultVlan, connected) else []
  }

  /** The resets `assign_user_to_screen` makes before pairing, in order: the
      displaced box's port, then the user's box's port when it leaves another
      screen. */
  function ReleaseCalls(s: ScreenStore.Screen, b: BoxStore.Box, ss: seq<ScreenStore.Screen>, bs: seq<BoxStore.Box>,
                        defaultVlan: string, connected: bool): seq<Switch.PortCall> {
    DisplacedCalls(s, bs, b.boxId, defaultVlan, connected) + MovedCalls(ss, b, s.screenId, defaultVlan, connected)
  }

  /** All switch requests of `assign_user_to_screen`: the resets, then the
      screen port into the user's box's VLAN. */
  function UserScreenCalls(s: ScreenStore.Screen, b: BoxStore.Box, ss: seq<ScreenStore.Screen>, bs: seq<BoxStore.Box>,
                           defaultVlan: string, connected: bool): seq<Switch.PortCall> {
    ReleaseCalls(s, b, ss, bs, defaultVlan, connected) + PairCall(s.portNumber, b.vlanNumber, connected)
  }

  /** After the releases, the screen at `k` differs from before only in its
      box, and either holds the box already or is free while no screen holds
      it: the state in which pairing the two succeeds. */
  ghost predicate RoomFor(before: seq<ScreenStore.Screen>, after: seq<ScreenStore.Screen>, k: int, boxId: int) {
    0 <= k < |before| && |after| == |before| &&
    after[k].(boxId := Some(boxId)) == before[k].(boxId := Some(boxId)) &&
    (after[k].boxId == Some(boxId) || (after[k].boxId.None? && !ScreenStore.BoxOnScreen(after, boxId)))
  }

  /** The displaced box's reset comes first and the screen's own request
      comes last. */
  lemma UserScreenCallsOrder(s: ScreenStore.Screen, b: BoxStore.Box, ss: seq<ScreenStore.Screen>, bs: seq<BoxStore.Box>,
                             defaultVlan: string, connected: bool)
    ensures var calls := UserScreenCalls(s, b, ss, bs, defaultVlan, connected);
      |calls| <= 3 &&
      (connected && DisplacedBox(s, bs, b.boxId).Some? && DisplacedBox(s, bs, b.boxId).value.portNumber != "" ==>
        calls[0] == Switch.PortCall(DisplacedBox(s, bs, b.boxId).value.portNumber, OrElse(DisplacedBox(s, bs, b.boxId).value.vlanNumber, defaultVlan))) &&
      (connected && s.portNumber != "" && Truthy(b.vlanNumber) ==>
        calls[|calls| - 1] == Switch.PortCall(s.portNumber, b.vlanNumber.value))
  {
  }

  /** The table after the user's boxes are cleared and the box at `i`, free
      after the clearing, is given to the user. */
  ghost predicate ClaimedAt(before: seq<BoxStore.Box>, after: seq<BoxStore.Box>, user: string, i: int) {
    var cleared := BoxStore.Cleared(before, user);
    0 <= i < |before| && BoxStore.BoundAt(cleared, after, i, user, cleared[i].(userId := Some(user)))
  }

  /** The user holds the box at `i` and no other. */
  ghost predicate HeldOnlyAt(bs: seq<BoxStore.Box>, user: string, i: int) {
    0 <= i < |bs| && bs[i].userId == Some(user) &&
    forall j :: 0 <= j < |bs| && j != i ==> bs[j].userId != Some(user)
  }

  /** Clearing before claiming is what keeps a user to one box: afterwards the
      user holds exactly the claimed box, ids are as they were, and no user
      holds two boxes if none did before. */
  lemma {:induction false} ClaimLeavesOneHolder(before: seq<BoxStore.Box>, after: seq<BoxStore.Box>, user: string, i: int)
    requires ClaimedAt(before, after, user, i)
    ensures HeldOnlyAt(after, user, i)
    ensures |after| == |before| && forall j :: 0 <= j < |after| ==> after[j].boxId == before[j].boxId
    ensures BoxStore.UniqueIds(before) ==> BoxStore.UniqueIds(after)
    ensures BoxStore.OneBoxPerUser(before) ==> BoxStore.OneBoxPerUser(after)
  {
    var cleared := BoxStore.Cleared(before, user);
    forall j | 0 <= j < |after| && j != i ensures after[j] == BoxStore.Released(before[j], user) {
      assert after[j] == cleared[j];
    }
    if BoxStore.OneBoxPerUser(before) {
      forall j, k | 0 <= j < k < |after| && after[j].userId.Some? ensures after[j].userId != after[k].userId {
        if j != i && k != i {
          assert before[j].userId != before[k].userId;
        }
      }
    }
  }

  class Server {
    const boxes: BoxStore.BoxService
    const screens: ScreenStore.ScreenService
    const worker: Switch.CiscoWorker

    ghost predicate Valid()
      reads this, boxes, screens
    {
      boxes.Valid() && screens.Valid()
    }

    /** Empty tables and a worker that is not yet connected. */
    constructor (device: Switch.Device, defaultBoxVlan: string, defaultScreenVlan: string)
      ensures Valid()
      ensures boxes.boxes == [] && screens.screens == []
      ensures worker.device == device && worker.defaultBoxVlan == defaultBoxVlan
      ensures !worker.connected && worker.log == [] && worker.portCalls == []
    {
      boxes := new BoxStore.BoxService();
      screens := new ScreenStore.ScreenService();
      worker := new Switch.CiscoWorker(device, defaultBoxVlan, defaultScreenVlan);
    }

    // -------------------------------------------------------------------
    // Guarded switch requests

    /** Resets a box port if it has one and the switch is connected; failures are ignored. */
    method ResetBoxPort(b: BoxStore.Box)
      modifies worker
      ensures worker.portCalls == old(worker.portCalls) + ResetCall(b, worker.defaultBoxVlan, old(worker.connected))
      ensures worker.connected == old(worker.connected)
      ensures !old(worker.connected) ==> worker.log == old(worker.log)
    {
      if b.portNumber != "" && worker.connected {
        var _ := worker.AssignPortToVlan(b.portNumber, OrElse(b.vlanNumber, worker.defaultBoxVlan));
      }
    }

    /** Puts a screen port into a box VLAN if both are set and the switch is connected. */
    method SetScreenPort(port: string, vlan: Option<string>)
      modifies worker
      ensures worker.portCalls == old(worker.portCalls) + PairCall(port, vlan, old(worker.connected))
      ensures worker.connected == old(worker.connected)
      ensures !old(worker.connected) ==> worker.log == old(worker.log)
    {
      if port != "" && Truthy(vlan) && worker.connected {
        var _ := worker.AssignPortToVlan(port, vlan.value);
      }
    }

    // -------------------------------------------------------------------
    // Box handlers

    /** `delete_box`: removes the box and nothing else; a screen paired with it keeps the pairing. */
    method DeleteBox(id: int) returns (status: int)
      requires Valid()
      modifies boxes
      ensures Valid()
      ensures status == if BoxStore.HasId(old(boxes.boxes), id) then OK else NotFound
      ensures boxes.boxes == BoxStore.WithoutId(old(boxes.boxes), id)
      ensures screens.screens == old(screens.screens)
    {
      var deleted := boxes.DeleteBox(id);
      if !deleted {
        return NotFound;
      }
      return OK;
    }

    /** `assign_box`: clears every box the user holds, then claims the box
        given, or, without one, the first free box. The clearing stays even
        when the claim fails. */
    method AssignBox(user: Option<string>, boxId: Option<int>) returns (status: int)
      requires Valid()
      modifies boxes
      ensures Valid()
      ensures user.None? ==> status == BadRequest && boxes.boxes == old(boxes.boxes)
      ensures user.Some? && status != OK ==> boxes.boxes == BoxStore.Cleared(old(boxes.boxes), user.value)
      ensures user.Some? && IdGiven(boxId) ==> (status == NotFound <==> !BoxStore.HasId(old(boxes.boxes), boxId.value))
      ensures user.Some? && IdGiven(boxId) ==> forall i :: 0 <= i < |old(boxes.boxes)| && old(boxes.boxes)[i].boxId == boxId.value ==>
        (status == BadRequest <==> BoxStore.Released(old(boxes.boxes)[i], user.value).userId.Some?)
      ensures user.Some? && IdGiven(boxId) && status == OK ==>
        exists i :: ClaimedAt(old(boxes.boxes), boxes.boxes, user.value, i) && old(boxes.boxes)[i].boxId == boxId.value
      ensures user.Some? && !IdGiven(boxId) ==> status == OK || status == NotFound
      ensures user.Some? && !IdGiven(boxId) && status == OK ==>
        exists i :: ClaimedAt(old(boxes.boxes), boxes.boxes, user.value, i) && BoxStore.FirstFree(BoxStore.Cleared(old(boxes.boxes), user.value), i)
      ensures user.Some? && status == OK ==> exists i :: HeldOnlyAt(boxes.boxes, user.value, i)
      ensures BoxStore.OneBoxPerUser(old(boxes.boxes)) ==> BoxStore.OneBoxPerUser(boxes.boxes)
    {
      if user.None? {
        return BadRequest;
      }
      if !IdGiven(boxId) {
        status := ClaimAnyFreeBox(user.value);
        return;
      }
      var u := user.value;
      var id := boxId.value;
      boxes.UnassignUserIfExists(u);
      ghost var cleared := boxes.boxes;
      assert cleared == BoxStore.Cleared(old(boxes.boxes), u);
      var box := boxes.AssignUserToBox(u, id);
      if box.None? {
        var found := boxes.GetBoxById(id);
        if found.None? {
          return NotFound;
        }
        return BadRequest;
      }
      ghost var i :| BoxStore.BoundAt(cleared, boxes.boxes, i, u, box.value) && cleared[i].boxId == id;
      assert ClaimedAt(old(boxes.boxes), boxes.boxes, u, i);
      ClaimLeavesOneHolder(old(boxes.boxes), boxes.boxes, u, i);
      return OK;
    }

    /** `assign_user_to_free_box` */
    method AssignUserToFreeBox(user: Option<string>) returns (status: int)
      requires Valid()
      modifies boxes
      ensures Valid()
      ensures user.None? ==> status == BadRequest && boxes.boxes == old(boxes.boxes)
      ensures user.Some? ==> status == OK || status == NotFound
      ensures user.Some? && status == NotFound ==> boxes.boxes == BoxStore.Cleared(old(boxes.boxes), user.value)
      ensures user.Some? ==> (status == NotFound <==> forall i :: 0 <= i < |old(boxes.boxes)| ==> !BoxStore.IsFree(BoxStore.Released(old(boxes.boxes)[i], user.value)))
      ensures user.Some? && status == OK ==>
        exists i :: ClaimedAt(old(boxes.boxes), boxes.boxes, user.value, i) && BoxStore.FirstFree(BoxStore.Cleared(old(boxes.boxes), user.value), i)
      ensures user.Some? && status == OK ==> exists i :: HeldOnlyAt(boxes.boxes, user.value, i)
      ensures BoxStore.OneBoxPerUser(old(boxes.boxes)) ==> BoxStore.OneBoxPerUser(boxes.boxes)
    {
      if user.None? {
        return BadRequest;
      }
      status := ClaimAnyFreeBox(user.value);
    }

    /** The shared body of `assign_box` without a box and of
        `assign_user_to_free_box`: clear the user's boxes, claim the first free one. */
    method ClaimAnyFreeBox(user: string) returns (status: int)
      requires Valid()
      modifies boxes
      ensures Valid()
      ensures status == OK || status == NotFound
      ensures status == NotFound ==> boxes.boxes == BoxStore.Cleared(old(boxes.boxes), user)
      ensures status == NotFound <==> forall i :: 0 <= i < |old(boxes.boxes)| ==> !BoxStore.IsFree(BoxStore.Released(old(boxes.boxes)[i], user))
      ensures status == OK ==>
        exists i :: ClaimedAt(old(boxes.boxes), boxes.boxes, user, i) && BoxStore.FirstFree(BoxStore.Cleared(old(boxes.boxes), user), i)
      ensures status == OK ==> exists i :: HeldOnlyAt(boxes.boxes, user, i)
      ensures BoxStore.OneBoxPerUser(old(boxes.boxes)) ==> BoxStore.OneBoxPerUser(boxes.boxes)
    {
      boxes.UnassignUserIfExists(user);
      ghost var cleared := boxes.boxes;
      assert cleared == BoxStore.Cleared(old(boxes.boxes), user);
      var box := boxes.AssignUserToAnyFreeBox(user);
      if box.None? {
        return NotFound;
      }
      ghost var i :| BoxStore.FirstFree(cleared, i) && BoxStore.BoundAt(cleared, boxes.boxes, i, user, box.value);
      assert ClaimedAt(old(boxes.boxes), boxes.boxes, user, i);
      ClaimLeavesOneHolder(old(boxes.boxes), boxes.boxes, user, i);
      return OK;
    }

    /** `unassign_box`: by user if one is given (404 if the user holds no
        box), otherwise by box (404 unknown, 400 already free). */
    method UnassignBox(user: Option<string>, boxId: Option<int>) returns (status: int)
      requires Valid()
      modifies boxes
      ensures Valid()
      ensures user.None? && boxId.None? ==> status == BadRequest && boxes.boxes == old(boxes.boxes)
      ensures user.Some? ==> status == (if BoxStore.HeldBy(old(boxes.boxes), user.value) then OK else NotFound)
      ensures user.Some? ==> boxes.boxes == BoxStore.Cleared(old(boxes.boxes), user.value)
      ensures user.None? && boxId.Some? ==> (status == NotFound <==> !BoxStore.HasId(old(boxes.boxes), boxId.value))
      ensures user.None? && boxId.Some? ==> forall i :: 0 <= i < |old(boxes.boxes)| && old(boxes.boxes)[i].boxId == boxId.value ==>
        status == (if old(boxes.boxes)[i].userId.Some? then OK else BadRequest) &&
        boxes.boxes == old(boxes.boxes)[i := old(boxes.boxes)[i].(userId := None)]
      ensures status != OK ==> boxes.boxes == old(boxes.boxes)
      ensures BoxStore.OneBoxPerUser(old(boxes.boxes)) ==> BoxStore.OneBoxPerUser(boxes.boxes)
    {
      if user.None? && boxId.None? {
        return BadRequest;
      }
      if user.Some? {
        var found := boxes.UnassignUserFromBox(user.value);
        if !found {
          assert boxes.boxes == old(boxes.boxes);
          return NotFound;
        }
        return OK;
      }
      var result := boxes.UnassignBox(boxId.value);
      if result.None? {
        return NotFound;
      }
      if !result.value {
        return BadRequest;
      }
      return OK;
    }

    // -------------------------------------------------------------------
    // Screen handlers

    /** `delete_screen`: removes the screen and nothing else. */
    method DeleteScreen(id: int) returns (status: int)
      requires Valid()
      modifies screens
      ensures Valid()
      ensures status == if ScreenStore.HasScreen(old(screens.screens), id) then OK else NotFound
      ensures screens.screens == ScreenStore.WithoutId(old(screens.screens), id)
      ensures boxes.boxes == old(boxes.boxes)
    {
      var deleted := screens.DeleteScreen(id);
      if !deleted {
        return NotFound;
      }
      return OK;
    }

    /** `assign_box_to_screen`: 404 for an unknown box or screen, 400 when
        the screen holds another box or the box is on another screen;
        otherwise the pairing, and the screen port put into the box's VLAN. */
    method AssignBoxToScreen(boxId: Option<int>, screenId: Option<int>) returns (status: int)
      requires Valid()
      modifies screens, worker
      ensures Valid()
      ensures worker.connected == old(worker.connected)
      ensures !old(worker.connected) ==> worker.log == old(worker.log)
      ensures status != OK ==> screens.screens == old(screens.screens) && worker.portCalls == old(worker.portCalls)
      ensures boxId.None? || screenId.None? ==> status == BadRequest
      ensures boxId.Some? && screenId.Some? && !BoxStore.HasId(boxes.boxes, boxId.value) ==> status == NotFound
      ensures boxId.Some? && screenId.Some? && BoxStore.HasId(boxes.boxes, boxId.value) ==>
        (status == NotFound <==> !ScreenStore.HasScreen(old(screens.screens), screenId.value))
      ensures boxId.Some? && screenId.Some? && BoxStore.HasId(boxes.boxes, boxId.value) ==>
        forall i :: 0 <= i < |old(screens.screens)| && old(screens.screens)[i].screenId == screenId.value ==>
          (status == OK <==> old(screens.screens)[i].boxId == Some(boxId.value) ||
                             (old(screens.screens)[i].boxId.None? && !ScreenStore.BoxOnScreen(old(screens.screens), boxId.value))) &&
          (status != OK ==> status == BadRequest) &&
          (status == OK ==>
             (screens.screens == old(screens.screens)[i := old(screens.screens)[i].(boxId := Some(boxId.value))] &&
              worker.portCalls == old(worker.portCalls) +
                PairCall(old(screens.screens)[i].portNumber, BoxStore.FindBox(boxes.boxes, boxId.value).value.vlanNumber, old(worker.connected))))
      ensures ScreenStore.OneScreenPerBox(old(screens.screens)) ==> ScreenStore.OneScreenPerBox(screens.screens)
    {
      if boxId.None? || screenId.None? {
        return BadRequest;
      }
      var bid := boxId.value;
      var sid := screenId.value;
      var box := boxes.GetBoxById(bid);
      if box.None? {
        return NotFound;
      }
      var screen := screens.AssignBoxToScreen(bid, sid);
      if screen.None? {
        var found := screens.GetScreenById(sid);
        if found.None? {
          return NotFound;
        }
        var existing := screens.GetScreenById(sid);
        if existing.Some? && existing.value.boxId.Some? {
          return BadRequest;
        }
        var existingForBox := screens.GetScreenByBoxId(bid);
        if existingForBox.Some? {
          return BadRequest;
        }
        assert false;
      } else {
        SetScreenPort(screen.value.portNumber, box.value.vlanNumber);
      }
      return OK;
    }

    /** `assign_user_to_screen`: 404 for an unknown screen and 400 for a user
        without a box, before anything changes; otherwise the user's box is
        moved onto the screen. */
    method AssignUserToScreen(screenId: Option<int>, user: Option<string>) returns (status: int)
      requires Valid()
      modifies screens, worker
      ensures Valid()
      ensures worker.connected == old(worker.connected)
      ensures !old(worker.connected) ==> worker.log == old(worker.log)
      ensures status != OK ==> screens.screens == old(screens.screens) && worker.portCalls == old(worker.portCalls)
      ensures screenId.None? || user.None? ==> status == BadRequest
      ensures screenId.Some? && user.Some? && ScreenStore.FindScreen(old(screens.screens), screenId.value).None? ==> status == NotFound
      ensures (screenId.Some? && user.Some? && ScreenStore.FindScreen(old(screens.screens), screenId.value).Some? &&
               BoxStore.FindUserBox(boxes.boxes, user.value).None?) ==> status == BadRequest
      ensures (screenId.Some? && user.Some? && ScreenStore.FindScreen(old(screens.screens), screenId.value).Some? &&
               BoxStore.FindUserBox(boxes.boxes, user.value).Some?) ==>
        (status == OK &&
         worker.portCalls == old(worker.portCalls) +
           UserScreenCalls(ScreenStore.FindScreen(old(screens.screens), screenId.value).value,
                           BoxStore.FindUserBox(boxes.boxes, user.value).value,
                           old(screens.screens), boxes.boxes, worker.defaultBoxVlan, old(worker.connected)) &&
         ScreenStore.FindScreen(screens.screens, screenId.value) ==
           Some(ScreenStore.FindScreen(old(screens.screens), screenId.value).value.(boxId := Some(BoxStore.FindUserBox(boxes.boxes, user.value).value.boxId))))
      ensures status == OK ==>
        screenId.Some? && user.Some? && BoxStore.FindUserBox(boxes.boxes, user.value).Some? &&
        forall k :: ScreenStore.FirstWithId(old(screens.screens), screenId.value, k) ==>
          screens.screens == PairedTable(old(screens.screens), k, BoxStore.FindUserBox(boxes.boxes, user.value).value)
      ensures (status == OK && ScreenStore.OneScreenPerBox(old(screens.screens))) ==>
        (forall j :: 0 <= j < |screens.screens| && screens.screens[j].screenId != screenId.value ==>
          screens.screens[j].boxId != Some(BoxStore.FindUserBox(boxes.boxes, user.value).value.boxId))
      ensures ScreenStore.OneScreenPerBox(old(screens.screens)) ==> ScreenStore.OneScreenPerBox(screens.screens)
    {
      if screenId.None? || user.None? {
        return BadRequest;
      }
      var screen := screens.GetScreenById(screenId.value);
      if screen.None? {
        return NotFound;
      }
      var box := boxes.GetBoxByUserId(user.value);
      if box.None? {
        return BadRequest;
      }
      ghost var k :| ScreenStore.FirstWithId(screens.screens, screenId.value, k) && screens.screens[k] == screen.value;
      status := MoveBoxOntoScreen(screen.value, box.value, k);
      forall k' | ScreenStore.FirstWithId(old(screens.screens), screenId.value, k') ensures k' == k {
      }
    }

    /** The second half of `assign_user_to_screen`: the screen is released
        from another box (whose port is reset), the box is released from
        another screen (its port reset), the two are paired and the screen
        port put into the box's VLAN. The releases make room for the pairing,
        so the 500 answer for a failed pairing is never given. */
    method MoveBoxOntoScreen(s: ScreenStore.Screen, b: BoxStore.Box, ghost k: int) returns (status: int)
      requires Valid()
      requires ScreenStore.FirstWithId(screens.screens, s.screenId, k) && screens.screens[k] == s
      modifies screens, worker
      ensures Valid()
      ensures worker.connected == old(worker.connected)
      ensures !old(worker.connected) ==> worker.log == old(worker.log)
      ensures status == OK
      ensures worker.portCalls == old(worker.portCalls) + UserScreenCalls(s, b, old(screens.screens), boxes.boxes, worker.defaultBoxVlan, old(worker.connected))
      ensures ScreenStore.FindScreen(screens.screens, s.screenId) == Some(s.(boxId := Some(b.boxId)))
      ensures screens.screens == PairedTable(old(screens.screens), k, b)
      ensures ScreenStore.OneScreenPerBox(old(screens.screens)) ==> ScreenStore.OneScreenPerBox(screens.screens)
      ensures ScreenStore.OneScreenPerBox(old(screens.screens)) ==>
        forall j :: 0 <= j < |screens.screens| && screens.screens[j].screenId != s.screenId ==> screens.screens[j].boxId != Some(b.boxId)
    {
      ghost var ss := screens.screens;
      ghost var calls0 := worker.portCalls;
      ghost var dv := worker.defaultBoxVlan;
      ghost var conn := worker.connected;
      ghost var bs := boxes.boxes;
      ghost var r := ReleaseCalls(s, b, ss, bs, dv, conn);
      ReleaseForPairing(s, b, k);
      ghost var s2 := screens.screens;
      ghost var calls1 := worker.portCalls;
      assert calls1 == calls0 + r;
      status := PairReleased(s.screenId, b, k);
      assert screens.screens == s2[k := s2[k].(boxId := Some(b.boxId))];
      assert screens.screens[k] == s.(boxId := Some(b.boxId));
      assert worker.portCalls == calls0 + r + PairCall(s.portNumber, b.vlanNumber, conn);
    }

    /** The pairing that follows the releases; it cannot fail, since the
        screen holds the box already or is free while no screen holds it. */
    method PairReleased(sid: int, b: BoxStore.Box, ghost k: int) returns (status: int)
      requires Valid()
      requires 0 <= k < |screens.screens| && screens.screens[k].screenId == sid
      requires screens.screens[k].boxId == Some(b.boxId) ||
               (screens.screens[k].boxId.None? && !ScreenStore.BoxOnScreen(screens.screens, b.boxId))
      modifies screens, worker
      ensures Valid()
      ensures worker.connected == old(worker.connected)
      ensures !old(worker.connected) ==> worker.log == old(worker.log)
      ensures status == OK
      ensures screens.screens == old(screens.screens)[k := old(screens.screens)[k].(boxId := Some(b.boxId))]
      ensures worker.portCalls == old(worker.portCalls) + PairCall(old(screens.screens)[k].portNumber, b.vlanNumber, old(worker.connected))
      ensures ScreenStore.FindScreen(screens.screens, sid) == Some(screens.screens[k])
      ensures ScreenStore.OneScreenPerBox(old(screens.screens)) ==> ScreenStore.OneScreenPerBox(screens.screens)
      ensures ScreenStore.OneScreenPerBox(old(screens.screens)) ==>
        forall j :: 0 <= j < |screens.screens| && screens.screens[j].screenId != sid ==> screens.screens[j].boxId != Some(b.boxId)
    {
      ghost var s2 := screens.screens;
      var paired := screens.AssignBoxToScreen(b.boxId, sid);
      if paired.None? {
        assert false;
        return ServerError;
      }
      ghost var j :| ScreenStore.PairedAt(s2, screens.screens, j, b.boxId, paired.value) && s2[j].screenId == sid;
      assert j == k;
      assert ScreenStore.FirstWithId(screens.screens, sid, k);
      SetScreenPort(paired.value.portNumber, b.vlanNumber);
      return OK;
    }

    /** Both releases of `assign_user_to_screen`, which leave room for the pairing. */
    method ReleaseForPairing(s: ScreenStore.Screen, b: BoxStore.Box, ghost k: int)
      requires Valid()
      requires ScreenStore.FirstWithId(screens.screens, s.screenId, k) && screens.screens[k] == s
      modifies screens, worker
      ensures Valid()
      ensures worker.connected == old(worker.connected)
      ensures !old(worker.connected) ==> worker.log == old(worker.log)
      ensures worker.portCalls == old(worker.portCalls) + DisplacedCalls(s, boxes.boxes, b.boxId, worker.defaultBoxVlan, old(worker.connected))
                                  + MovedCalls(old(screens.screens), b, s.screenId, worker.defaultBoxVlan, old(worker.connected))
      ensures screens.screens == ReleasedTable(old(screens.screens), k, b)
      ensures RoomFor(old(screens.screens), screens.screens, k, b.boxId)
      ensures ScreenStore.OneScreenPerBox(old(screens.screens)) ==> ScreenStore.OneScreenPerBox(screens.screens)
    {
      ghost var ss := screens.screens;
      ReleaseScreen(s, b.boxId, k);
      ghost var s1 := screens.screens;
      ReleaseBox(b, s.screenId);
      ReleasesMakeRoom(ss, s1, screens.screens, k, b);
    }

    /** The first release: a screen holding another box lets it go, and that
        box's port is reset if the box still exists. */
    method ReleaseScreen(s: ScreenStore.Screen, bid: int, ghost k: int)
      requires Valid()
      requires ScreenStore.FirstWithId(screens.screens, s.screenId, k) && screens.screens[k] == s
      modifies screens, worker
      ensures Valid()
      ensures worker.connected == old(worker.connected)
      ensures !old(worker.connected) ==> worker.log == old(worker.log)
      ensures worker.portCalls == old(worker.portCalls) + DisplacedCalls(s, boxes.boxes, bid, worker.defaultBoxVlan, old(worker.connected))
      ensures screens.screens == if Displaces(s, bid) then old(screens.screens)[k := s.(boxId := None)] else old(screens.screens)
      ensures ScreenStore.OneScreenPerBox(old(screens.screens)) ==> ScreenStore.OneScreenPerBox(screens.screens)
    {
      if Displaces(s, bid) {
        var oldBox := boxes.GetBoxById(s.boxId.value);
        var _ := screens.UnassignScreen(s.screenId);
        if oldBox.Some? {
          ResetBoxPort(oldBox.value);
        }
      }
    }

    /** The second release: a box on another screen is released from every
        screen, and its port reset. */
    method ReleaseBox(b: BoxStore.Box, sid: int)
      requires Valid()
      modifies screens, worker
      ensures Valid()
      ensures worker.connected == old(worker.connected)
      ensures !old(worker.connected) ==> worker.log == old(worker.log)
      ensures worker.portCalls == old(worker.portCalls) + MovedCalls(old(screens.screens), b, sid, worker.defaultBoxVlan, old(worker.connected))
      ensures screens.screens == if OnOtherScreen(old(screens.screens), b, sid) then DetachedAll(old(screens.screens), b.boxId) else old(screens.screens)
      ensures ScreenStore.OneScreenPerBox(old(screens.screens)) ==> ScreenStore.OneScreenPerBox(screens.screens)
    {
      var existing := screens.GetScreenByBoxId(b.boxId);
      if existing.Some? && existing.value.screenId != sid {
        var _ := screens.UnassignBoxFromScreen(b.boxId);
        assert screens.screens == DetachedAll(old(screens.screens), b.boxId);
        ResetBoxPort(b);
      }
    }

    /** `unassign_box_from_screen`: by box if one is given (404 for an
        unknown box or one on no screen), otherwise by screen (404 unknown,
        400 already free); the box that leaves has its port reset. */
    method UnassignBoxFromScreen(boxId: Option<int>, screenId: Option<int>) returns (status: int)
      requires Valid()
      modifies screens, worker
      ensures Valid()
      ensures worker.connected == old(worker.connected)
      ensures !old(worker.connected) ==> worker.log == old(worker.log)
      ensures status != OK ==> screens.screens == old(screens.screens) && worker.portCalls == old(worker.portCalls)
      ensures boxId.None? && screenId.None? ==> status == BadRequest
      ensures boxId.Some? ==>
        status == (if BoxStore.HasId(boxes.boxes, boxId.value) && ScreenStore.BoxOnScreen(old(screens.screens), boxId.value) then OK else NotFound)
      ensures boxId.Some? && status == OK ==>
        |screens.screens| == |old(screens.screens)| &&
        (forall i :: 0 <= i < |screens.screens| ==> screens.screens[i] == ScreenStore.Detached(old(screens.screens)[i], boxId.value)) &&
        worker.portCalls == old(worker.portCalls) + ResetCall(BoxStore.FindBox(boxes.boxes, boxId.value).value, worker.defaultBoxVlan, old(worker.connected))
      ensures boxId.None? && screenId.Some? ==> (status == NotFound <==> !ScreenStore.HasScreen(old(screens.screens), screenId.value))
      ensures boxId.None? && screenId.Some? ==>
        forall i :: 0 <= i < |old(screens.screens)| && old(screens.screens)[i].screenId == screenId.value ==>
          status == (if old(screens.screens)[i].boxId.Some? then OK else BadRequest) &&
          (status == OK ==>
             (screens.screens == old(screens.screens)[i := old(screens.screens)[i].(boxId := None)] &&
              worker.portCalls == old(worker.portCalls) + FreedBoxCalls(old(screens.screens)[i], boxes.boxes, worker.defaultBoxVlan, old(worker.connected))))
      ensures ScreenStore.OneScreenPerBox(old(screens.screens)) ==> ScreenStore.OneScreenPerBox(screens.screens)
    {
      if boxId.None? && screenId.None? {
        return BadRequest;
      }
      if boxId.Some? {
        var box := boxes.GetBoxById(boxId.value);
        if box.None? {
          return NotFound;
        }
        var unassigned := screens.UnassignBoxFromScreen(boxId.value);
        if !unassigned {
          assert screens.screens == old(screens.screens);
          return NotFound;
        }
        ResetBoxPort(box.value);
        return OK;
      }
      var sid := screenId.value;
      var screen := screens.GetScreenById(sid);
      if screen.None? {
        return NotFound;
      }
      var freed := screen.value.boxId;
      var result := screens.UnassignScreen(sid);
      if result.None? {
        return NotFound;
      }
      if !result.value {
        return BadRequest;
      }
      if IdGiven(freed) {
        var box := boxes.GetBoxById(freed.value);
        if box.Some? {
          ResetBoxPort(box.value);
        }
      }
      return OK;
    }
  }

  /** The reset `unassign_box_from_screen` makes for a screen it frees: only
      when the screen had a box and that box is still in the table. */
  function FreedBoxCalls(s: ScreenStore.Screen, bs: seq<BoxStore.Box>, defaultVlan: string, connected: bool): seq<Switch.PortCall> {
    if IdGiven(s.boxId) && BoxStore.FindBox(bs, s.boxId.value).Some? then ResetCall(BoxStore.FindBox(bs, s.boxId.value).value, defaultVlan, connected) else []
  }
}
