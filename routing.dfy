/**
 * Panel routing of the map screen (src/scenes/MapScreen.js), on values.
 *
 * The screen keeps independent `useState` flags, one per overlay sheet, plus the selected pin.
 * Which sheet is drawn is decided by a nested conditional over those flags (`Selected`);
 * the event handlers are `Step`. Nothing in the state itself keeps the flags exclusive:
 * the conditional's precedence makes what is shown exclusive. The flags stay exclusive only
 * when each handler fires while its element is on screen and each menu intent takes effect
 * before the next tap (`Enabled`); the asynchronous user lookup does not ensure the latter.
 */
module PanelRouting {
  import opened Wrappers
  import opened MarkerColour

  /** The component's `useState` fields that take part in routing. */
  datatype ScreenState = ScreenState(
    modalVisible: bool,          // the add-trashcan sheet
    infoModalVisible: bool,      // the trashcan-info sheet
    selectedIndex: Option<nat>,  // index of the tapped marker, `null` when none
    selectedId: Option<PinId>,   // id of the tapped pin, `null` when none
    authModalVisible: bool,      // the login sheet
    alertVisible: bool,          // the "please log in first" alert
    leaderBoardVisible: bool     // the leaderboard sheet
  )

  /** What occupies the overlay slot: one sheet, or the floating button when no sheet applies. */
  datatype Panel = Info | Auth | Add | LeaderBoard | FloatingButton

  /** The stored user as returned by the session store; only its presence is consulted. */
  datatype StoredUser = StoredUser(raw: string)

  /** The gestures that reach the screen's handlers. */
  datatype Event =
    | Clicked(point: Pin, idx: nat)                   // marker tap: `onClicked(point, idx)`
    | MenuPressed(name: string, userData: Option<StoredUser>) // speed-dial intent, with the looked-up user
    | DismissInfo | DismissAuth | DismissAdd | DismissLeaderBoard // the sheets' `onDismiss`

  /** State right after the `useState` initialisers: note that `selectedIndex` starts at 0. */
  const Initial := ScreenState(false, false, Some(0), None, false, false, false)

  /** The mount effect clears the selected index. */
  function Mount(s: ScreenState): (r: ScreenState)
    ensures r.selectedIndex == None
    ensures r.(selectedIndex := s.selectedIndex) == s
  {
    s.(selectedIndex := None)
  }

  const Mounted := Mount(Initial)

  /** The render-time conditional: info, then auth, then add, then leaderboard, else the button.
      The info test is `selectedIndex !== null`, so index 0 counts as a selection. */
  function Selected(s: ScreenState): (r: Panel)
    ensures Requested(s, r)
    ensures forall q :: Rank(q) < Rank(r) ==> !Requested(s, q)
  {
    if s.infoModalVisible && s.selectedIndex != None then Info
    else if s.authModalVisible then Auth
    else if s.modalVisible then Add
    else if s.leaderBoardVisible then LeaderBoard
    else FloatingButton
  }

  /** Independent reference for the selection: the condition under which each panel asks to be
      shown, and its rank (smaller wins). */
  predicate Requested(s: ScreenState, p: Panel)
  {
    match p
    case Info => s.infoModalVisible && s.selectedIndex.Some?
    case Auth => s.authModalVisible
    case Add => s.modalVisible
    case LeaderBoard => s.leaderBoardVisible
    case FloatingButton => true
  }

  function Rank(p: Panel): nat
  {
    match p
    case Info => 0
    case Auth => 1
    case Add => 2
    case LeaderBoard => 3
    case FloatingButton => 4
  }

  /** The intent names the menu handler dispatches on. */
  const MenuNames: set<string> := {"login", "addTrashcan", "leaderBoard"}

  /** The handlers `onClicked`, `menuPressed` and the four `onDismiss` callbacks. */
  function Step(s: ScreenState, e: Event): (r: ScreenState)
    // only a marker tap or the info dismissal touches the info sheet and the selection
    ensures !(e.Clicked? || e.DismissInfo?) ==>
      r.infoModalVisible == s.infoModalVisible
      && r.selectedIndex == s.selectedIndex && r.selectedId == s.selectedId
    // the alert is raised only by an add intent without a stored user, and never cleared here
    ensures r.alertVisible ==
      (s.alertVisible || e == MenuPressed("addTrashcan", None))
    // only menu intents set a sheet flag other than info
    ensures !e.MenuPressed? ==>
      (r.authModalVisible ==> s.authModalVisible) && (r.modalVisible ==> s.modalVisible)
      && (r.leaderBoardVisible ==> s.leaderBoardVisible)
  {
    match e
    case Clicked(point, idx) =>
      s.(selectedIndex := Some(idx), selectedId := Some(point.id), infoModalVisible := true)
    case MenuPressed(name, userData) =>
      if name == "login" then s.(authModalVisible := true)
      else if name == "addTrashcan" then
        (if userData == None then s.(alertVisible := true) else s.(modalVisible := true))
      else if name == "leaderBoard" then s.(leaderBoardVisible := true)
      else s
    case DismissInfo =>
      s.(authModalVisible := false, infoModalVisible := false, selectedIndex := None, selectedId := None)
    case DismissAuth => s.(authModalVisible := false)
    case DismissAdd => s.(modalVisible := false)
    case DismissLeaderBoard => s.(leaderBoardVisible := false)
  }

  /** A handler can fire only while its element is rendered: the markers always; the menu only
      while the floating button occupies the slot; a sheet's `onDismiss` only while that sheet does. */
  predicate Enabled(s: ScreenState, e: Event)
    ensures e.Clicked? ==> Enabled(s, e)
    ensures e.MenuPressed? && Enabled(s, e) ==>
      !s.authModalVisible && !s.modalVisible && !s.leaderBoardVisible
    ensures e.DismissInfo? && Enabled(s, e) ==> s.infoModalVisible && s.selectedIndex.Some?
  {
    match e
    case Clicked(_, _) => true
    case MenuPressed(_, _) => Selected(s) == FloatingButton
    case DismissInfo => Selected(s) == Info
    case DismissAuth => Selected(s) == Auth
    case DismissAdd => Selected(s) == Add
    case DismissLeaderBoard => Selected(s) == LeaderBoard
  }

  /** Apply a sequence of events in order. */
  function Run(s: ScreenState, es: seq<Event>): ScreenState
    decreases |es|
  {
    if es == [] then s else Run(Step(s, es[0]), es[1..])
  }

  /** Every event of the sequence is enabled in the state it meets. */
  predicate EnabledRun(s: ScreenState, es: seq<Event>)
    decreases |es|
  {
    es == [] || (Enabled(s, es[0]) && EnabledRun(Step(s, es[0]), es[1..]))
  }

  function UnderCount(s: ScreenState): nat
  {
    (if s.authModalVisible then 1 else 0) + (if s.modalVisible then 1 else 0)
      + (if s.leaderBoardVisible then 1 else 0)
  }

  /** The invariant of reachable states: the info flag, the index and the id are set and cleared
      together, and at most one of the auth, add and leaderboard flags is set. */
  predicate Inv(s: ScreenState)
  {
    (s.infoModalVisible <==> s.selectedIndex.Some?)
    && (s.selectedIndex.Some? <==> s.selectedId.Some?)
    && UnderCount(s) <= 1
  }

  // ---------------------------------------------------------------- selection

  /** Whatever flags are set, the selected panel is the requested panel of smallest rank. */
  lemma SelectedIsHighestPriority(s: ScreenState, p: Panel)
    ensures Selected(s) == p <==>
      Requested(s, p) && forall q :: Rank(q) < Rank(p) ==> !Requested(s, q)
  {
    if Selected(s) != p && Requested(s, p) {
      var w := Selected(s);
      assert Requested(s, w) && Rank(w) < Rank(p);
    }
  }

  /** The info sheet is chosen exactly when its flag is set and an index, 0 included, is present. */
  lemma InfoSelectedIff(s: ScreenState)
    ensures Selected(s) == Info <==> s.infoModalVisible && s.selectedIndex.Some?
    ensures s.infoModalVisible && s.selectedIndex == Some(0) ==> Selected(s) == Info
  {
    SelectedIsHighestPriority(s, Info);
  }

  /** The floating button is shown only when no sheet applies. */
  lemma FloatingButtonIff(s: ScreenState)
    ensures Selected(s) == FloatingButton <==>
      !Requested(s, Info) && !s.authModalVisible && !s.modalVisible && !s.leaderBoardVisible
  {
    SelectedIsHighestPriority(s, FloatingButton);
  }

  // ---------------------------------------------------------------- single events

  /** A marker tap brings up the info sheet over whatever else is flagged, and touches no other flag. */
  lemma ClickShowsInfo(s: ScreenState, point: Pin, idx: nat)
    ensures Selected(Step(s, Clicked(point, idx))) == Info
    ensures var t := Step(s, Clicked(point, idx));
      t.selectedIndex == Some(idx) && t.selectedId == Some(point.id)
      && t.(selectedIndex := s.selectedIndex, selectedId := s.selectedId,
            infoModalVisible := s.infoModalVisible) == s
  {
  }

  /** Pressing a menu item while the button is shown opens the panel it names; adding without a
      stored user raises the alert instead and leaves every panel flag and the selection as they were. */
  lemma MenuOpensNamedPanel(s: ScreenState, name: string, userData: Option<StoredUser>)
    requires Selected(s) == FloatingButton
    ensures var t := Step(s, MenuPressed(name, userData));
      Selected(t) ==
        if name == "login" then Auth
        else if name == "addTrashcan" && userData.Some? then Add
        else if name == "leaderBoard" then LeaderBoard
        else FloatingButton
    ensures name == "addTrashcan" && userData == None ==>
      Step(s, MenuPressed(name, userData)) == s.(alertVisible := true)
    ensures name !in MenuNames ==> Step(s, MenuPressed(name, userData)) == s
    ensures Step(s, MenuPressed(name, userData)).alertVisible
        == (s.alertVisible || (name == "addTrashcan" && userData == None))
  {
  }

  /** The alert never changes what the slot shows, whatever else is on screen. */
  lemma UnauthenticatedAddKeepsView(s: ScreenState)
    ensures Selected(Step(s, MenuPressed("addTrashcan", None))) == Selected(s)
    ensures Step(s, MenuPressed("addTrashcan", None)).alertVisible
  {
  }

  /** Dismissing the info sheet clears the selection and also the login sheet, so neither is shown. */
  lemma InfoDismissHidesAuth(s: ScreenState)
    ensures var t := Step(s, DismissInfo);
      Selected(t) != Info && Selected(t) != Auth
      && t.selectedIndex == None && t.selectedId == None
      && t.modalVisible == s.modalVisible && t.leaderBoardVisible == s.leaderBoardVisible
      && t.alertVisible == s.alertVisible
  {
  }

  // ---------------------------------------------------------------- reachable states

  lemma MountedIsValid()
    ensures Inv(Mounted) && Selected(Mounted) == FloatingButton
    ensures Selected(Initial) == FloatingButton
    ensures !Inv(Initial)
  {
  }

  /** Every enabled event keeps the invariant. */
  lemma StepKeepsInv(s: ScreenState, e: Event)
    requires Inv(s) && Enabled(s, e)
    ensures Inv(Step(s, e))
  {
    match e
    case MenuPressed(name, userData) =>
      FloatingButtonIff(s);
      assert UnderCount(s) == 0;
    case _ =>
  }

  /** From any valid state, a sequence of enabled events ends in a valid state. */
  lemma {:induction false} RunKeepsInv(s: ScreenState, es: seq<Event>)
    requires Inv(s) && EnabledRun(s, es)
    ensures Inv(Run(s, es))
    decreases |es|
  {
    if es != [] {
      StepKeepsInv(s, es[0]);
      RunKeepsInv(Step(s, es[0]), es[1..]);
    }
  }

  /** In every state reached from mounting by enabled events, the only way two sheets are flagged
      at once is the info sheet drawn over one other; the floating button means nothing is flagged. */
  lemma ReachableExclusive(es: seq<Event>)
    requires EnabledRun(Mounted, es)
    ensures var s := Run(Mounted, es);
      UnderCount(s) <= 1
      && (s.infoModalVisible <==> s.selectedIndex.Some?)
      && (Selected(s) == FloatingButton <==>
            !s.infoModalVisible && !s.authModalVisible && !s.modalVisible && !s.leaderBoardVisible)
  {
    MountedIsValid();
    RunKeepsInv(Mounted, es);
    FloatingButtonIff(Run(Mounted, es));
  }

  /** Dismissing the sheet on top of a valid state: a login, add or leaderboard sheet returns the
      slot to the floating button; the info sheet returns it to the add or leaderboard sheet that
      was underneath, if any, and otherwise to the button (a login sheet beneath goes with it). */
  lemma DismissRevealsUnderlying(s: ScreenState, e: Event)
    requires Inv(s) && Enabled(s, e)
    requires e.DismissInfo? || e.DismissAuth? || e.DismissAdd? || e.DismissLeaderBoard?
    ensures Selected(Step(s, e)) ==
      if e.DismissInfo? && s.modalVisible then Add
      else if e.DismissInfo? && s.leaderBoardVisible then LeaderBoard
      else FloatingButton
  {
  }

  /** Without the gating, the flags can pile up: two menu intents taking effect in a row, as two
      taps during one pending user lookup do, leave the login and leaderboard flags both set. */
  lemma UngatedMenuBreaksExclusivity()
    ensures var t := Run(Mounted, [MenuPressed("leaderBoard", None), MenuPressed("login", None)]);
      !Inv(t) && Selected(t) == Auth && Selected(Step(t, DismissAuth)) == LeaderBoard
    ensures !EnabledRun(Mounted, [MenuPressed("leaderBoard", None), MenuPressed("login", None)])
  {
  }

  /** Open the login sheet, close it, tap a marker at index 0, close the info sheet: the screen is
      back where it started. */
  lemma LoginThenPinScenario(pin: Pin)
    ensures var es := [MenuPressed("login", None), DismissAuth, Clicked(pin, 0), DismissInfo];
      EnabledRun(Mounted, es) && Run(Mounted, es) == Mounted
  {
    var es := [MenuPressed("login", None), DismissAuth, Clicked(pin, 0), DismissInfo];
    var s1 := Step(Mounted, es[0]);
    var s2 := Step(s1, es[1]);
    var s3 := Step(s2, es[2]);
    var s4 := Step(s3, es[3]);
    assert Selected(s1) == Auth && s2 == Mounted && Selected(s3) == Info && s4 == Mounted;
    var t1, t2, t3 := es[1..], es[2..], es[3..];
    assert t1[1..] == t2 && t2[1..] == t3 && t3[1..] == [];
    assert Run(s3, t3) == s4 && EnabledRun(s3, t3);
    assert Run(s2, t2) == s4 && EnabledRun(s2, t2);
    assert Run(s1, t1) == s4 && EnabledRun(s1, t1);
  }
}
