/**
 * The speed-dial floating button (src/FloatingButton.js).
 *
 * One animated value drives three sub-action handles and the main handle's rotation. The main
 * handle flips a boolean `open` and starts a spring toward the opposite endpoint; only the
 * endpoints 0 and 1 of the animated value are modelled, where each transform is an exact linear
 * map on `real`. Each sub-action handle emits a fixed intent name to the screen.
 */
module SpeedDial {
  import PanelRouting

  /** The three sub-action handles, top to bottom as rendered. */
  datatype SubAction = LeaderBoardItem | TrashcanItem | UserItem

  /** The intent each handle passes to `onPressItem`. */
  function Intent(a: SubAction): (name: string)
    ensures name in PanelRouting.MenuNames
  {
    match a
    case LeaderBoardItem => "leaderBoard"
    case TrashcanItem => "addTrashcan"
    case UserItem => "login"
  }

  /** The handles emit exactly the names the screen's menu handler dispatches on, one each. */
  lemma IntentsAreMenuNames()
    ensures forall a, b :: Intent(a) == Intent(b) ==> a == b
    ensures forall n :: n in PanelRouting.MenuNames <==> exists a :: Intent(a) == n
  {
    assert Intent(LeaderBoardItem) == "leaderBoard";
    assert Intent(TrashcanItem) == "addTrashcan";
    assert Intent(UserItem) == "login";
  }

  /** Linear interpolation over the input range [0, 1] (Animated extends it linearly outside). */
  function Lerp(v: real, out0: real, out1: real): (r: real)
    ensures v == 0.0 ==> r == out0
    ensures v == 1.0 ==> r == out1
  {
    out0 + v * (out1 - out0)
  }

  /** The translateY output at animation value 1 for each handle. */
  function Offset(a: SubAction): real
  {
    match a
    case LeaderBoardItem => -45.0
    case TrashcanItem => -30.0
    case UserItem => -15.0
  }

  /** A handle's vertical offset: 0 when collapsed, its full offset when expanded. */
  function TranslateY(a: SubAction, v: real): (y: real)
    ensures v == 0.0 ==> y == 0.0
    ensures v == 1.0 ==> y == Offset(a)
  {
    Lerp(v, 0.0, Offset(a))
  }

  /** Every handle is scaled by the animated value itself: invisible at 0, full size at 1. */
  function Scale(a: SubAction, v: real): (k: real)
    ensures v == 0.0 ==> k == 0.0
    ensures v == 1.0 ==> k == 1.0
  {
    v
  }

  /** Main-handle rotation in degrees: '0deg' to '45deg'. */
  function RotationDeg(v: real): (deg: real)
    ensures v == 0.0 ==> deg == 0.0
    ensures v == 1.0 ==> deg == 45.0
  {
    Lerp(v, 0.0, 45.0)
  }

  /** The animation endpoint that corresponds to an `open` value. */
  function Endpoint(open: bool): (v: real)
    ensures v == 0.0 || v == 1.0
  {
    if open then 1.0 else 0.0
  }

  /** At 0 every handle is collapsed: no offset, scale 0, and the main handle is not turned. */
  lemma CollapsedTransforms(a: SubAction)
    ensures TranslateY(a, 0.0) == 0.0
    ensures Scale(a, 0.0) == 0.0
    ensures RotationDeg(0.0) == 0.0
  {
  }

  /** While the value moves between the endpoints, each transform stays between its endpoint
      values. */
  lemma TransformsBetweenEndpoints(a: SubAction, v: real)
    requires 0.0 <= v <= 1.0
    ensures Offset(a) <= TranslateY(a, v) <= 0.0
    ensures 0.0 <= Scale(a, v) <= 1.0
    ensures 0.0 <= RotationDeg(v) <= 45.0
  {
  }

  /** At 1 the handles sit 15, 30 and 45 points up at full scale and the main handle is turned
      45 degrees. */
  lemma ExpandedTransforms(a: SubAction)
    ensures Scale(a, 1.0) == 1.0 && RotationDeg(1.0) == 45.0
    ensures TranslateY(UserItem, 1.0) == -15.0
    ensures TranslateY(TrashcanItem, 1.0) == -30.0
    ensures TranslateY(LeaderBoardItem, 1.0) == -45.0
  {
  }

  /** While the value is above 0 the handles keep their stacking order: leaderboard highest,
      then add, then login, all above the resting position. */
  lemma HandlesStayOrdered(v: real)
    requires 0.0 < v
    ensures TranslateY(LeaderBoardItem, v) < TranslateY(TrashcanItem, v)
    ensures TranslateY(TrashcanItem, v) < TranslateY(UserItem, v) < 0.0
  {
  }

  /** `open` after n presses of the main handle, starting from the falsy 0. */
  function OpenAfter(n: nat): bool
  {
    if n == 0 then false else !OpenAfter(n - 1)
  }

  /** After n presses the button is open exactly when n is odd. */
  lemma {:induction false} OpenAfterParity(n: nat)
    ensures OpenAfter(n) <==> n % 2 == 1
  {
    if n > 0 {
      OpenAfterParity(n - 1);
    }
  }

  /** The target requested by press n+1 is the endpoint of the `open` that press produces. */
  lemma {:induction false} PressTargetsNewState(n: nat)
    ensures (if OpenAfter(n) then 0.0 else 1.0) == Endpoint(OpenAfter(n + 1))
    ensures Endpoint(OpenAfter(n + 1)) == (if n % 2 == 0 then 1.0 else 0.0)
  {
    OpenAfterParity(n);
    OpenAfterParity(n + 1);
  }

  /** The button as mounted. The screen renders it only while no sheet is shown, so every sheet
      that opens unmounts it, and it comes back closed with its value at 0: `presses` counts
      the presses since it last appeared. */
  class FloatingButton {
    /** The `open` state; JavaScript starts it at the number 0, which is falsy. */
    var open: bool
    /** The value the animated value was last sent toward (where the spring comes to rest). */
    var toValue: real
    /** How many times the main handle has been pressed. */
    ghost var presses: nat

    ghost predicate Valid()
      reads this
    {
      open == OpenAfter(presses) && toValue == Endpoint(open)
    }

    constructor ()
      ensures Valid() && presses == 0 && !open && toValue == 0.0
    {
      open := false;
      toValue := 0.0;
      presses := 0;
    }

    /** The main handle's `onPress`: target the opposite endpoint, start the spring, flip `open`. */
    method Press() returns (target: real)
      requires Valid()
      modifies this
      ensures Valid()
      ensures target == (if old(open) then 0.0 else 1.0)
      ensures open == !old(open) && presses == old(presses) + 1 && toValue == target
      ensures target == Endpoint(open)
    {
      target := if open then 0.0 else 1.0;
      toValue := target;
      open := !open;
      presses := presses + 1;
    }
  }

  /** A client: from a fresh button, two presses open and then close it again. */
  method PressTwice() returns (first: real, second: real)
    ensures first == 1.0 && second == 0.0
  {
    var b := new FloatingButton();
    first := b.Press();
    second := b.Press();
  }
}
