/**
 * The map screen component (src/scenes/MapScreen.js) as an object: its routing `useState`
 * flags are fields, and each handler updates them in place. Every handler states its whole
 * new state and that it agrees with the value-level transition `PanelRouting.Step`, so the
 * lemmas proved there apply to the object.
 */
module MapScreenComponent {
  import opened Wrappers
  import opened MarkerColour
  import opened PanelRouting

  class MapScreen {
    var modalVisible: bool
    var infoModalVisible: bool
    var selectedIndex: Option<nat>
    var selectedId: Option<PinId>
    var authModalVisible: bool
    var alertVisible: bool
    var leaderBoardVisible: bool

    /** The routing fields as one value. */
    function State(): ScreenState
      reads this
    {
      ScreenState(modalVisible, infoModalVisible, selectedIndex, selectedId,
                  authModalVisible, alertVisible, leaderBoardVisible)
    }

    /** The `useState` initialisers: every flag false, the index 0, the id `null`. */
    constructor ()
      ensures State() == Initial
      ensures Selected(State()) == FloatingButton
    {
      modalVisible := false;
      infoModalVisible := false;
      selectedIndex := Some(0);
      selectedId := None;
      authModalVisible := false;
      alertVisible := false;
      leaderBoardVisible := false;
    }

    /** The mount effect (empty dependency list): clears the selected index. */
    method MountEffect()
      modifies this
      ensures selectedIndex == None
      ensures State() == Mount(old(State()))
    {
      selectedIndex := None;
    }

    /** Marker tap: select the pin by index and id, and flag the info sheet. */
    method OnClicked(point: Pin, idx: nat)
      modifies this
      ensures selectedIndex == Some(idx) && selectedId == Some(point.id) && infoModalVisible
      ensures modalVisible == old(modalVisible) && authModalVisible == old(authModalVisible)
      ensures alertVisible == old(alertVisible) && leaderBoardVisible == old(leaderBoardVisible)
      ensures State() == Step(old(State()), Clicked(point, idx))
      ensures Selected(State()) == Info
    {
      selectedIndex := Some(idx);
      selectedId := Some(point.id);
      infoModalVisible := true;
    }

    /** Speed-dial intent, after the stored user has been looked up: login and leaderboard open
        their sheet; adding opens its sheet only for a stored user and raises the alert otherwise;
        any other name changes nothing. */
    method MenuPressed(name: string, userData: Option<StoredUser>)
      modifies this
      ensures authModalVisible == (old(authModalVisible) || name == "login")
      ensures modalVisible == (old(modalVisible) || (name == "addTrashcan" && userData.Some?))
      ensures alertVisible == (old(alertVisible) || (name == "addTrashcan" && userData == None))
      ensures leaderBoardVisible == (old(leaderBoardVisible) || name == "leaderBoard")
      ensures infoModalVisible == old(infoModalVisible)
      ensures selectedIndex == old(selectedIndex) && selectedId == old(selectedId)
      ensures State() == Step(old(State()), PanelRouting.MenuPressed(name, userData))
    {
      if name == "login" {
        authModalVisible := true;
      } else if name == "addTrashcan" {
        if userData == None {
          alertVisible := true;
        } else {
          modalVisible := true;
        }
      } else if name == "leaderBoard" {
        leaderBoardVisible := true;
      }
    }

    /** The info sheet's `onDismiss`: clears the login flag too, then the info flag and the selection. */
    method OnDismissInfo()
      modifies this
      ensures !authModalVisible && !infoModalVisible && selectedIndex == None && selectedId == None
      ensures modalVisible == old(modalVisible) && alertVisible == old(alertVisible)
      ensures leaderBoardVisible == old(leaderBoardVisible)
      ensures State() == Step(old(State()), DismissInfo)
      ensures Selected(State()) != Info && Selected(State()) != Auth
    {
      if authModalVisible {
        authModalVisible := false;
      }
      infoModalVisible := false;
      selectedIndex := None;
      selectedId := None;
    }

    /** The login sheet's `onDismiss`: clears its own flag only. */
    method OnDismissAuth()
      modifies this
      ensures !authModalVisible
      ensures State() == old(State()).(authModalVisible := false)
      ensures State() == Step(old(State()), DismissAuth)
    {
      authModalVisible := false;
    }

    /** The add sheet's `onDismiss`: clears its own flag only. */
    method OnDismissAdd()
      modifies this
      ensures !modalVisible
      ensures State() == old(State()).(modalVisible := false)
      ensures State() == Step(old(State()), DismissAdd)
    {
      modalVisible := false;
    }

    /** The leaderboard sheet's `onDismiss`: clears its own flag only. */
    method OnDismissLeaderBoard()
      modifies this
      ensures !leaderBoardVisible
      ensures State() == old(State()).(leaderBoardVisible := false)
      ensures State() == Step(old(State()), DismissLeaderBoard)
    {
      leaderBoardVisible := false;
    }
  }

  /** A client: mount the screen, open the login sheet with no stored user, tap the first marker
      (sheet drawn over the login sheet), then dismiss the info sheet; the login sheet is gone too. */
  method LoginThenMarkerTap(pin: Pin) returns (shown: Panel)
    ensures shown == FloatingButton
  {
    var screen := new MapScreen();
    screen.MountEffect();
    screen.MenuPressed("login", None);
    assert Selected(screen.State()) == Auth;
    screen.OnClicked(pin, 0);
    assert screen.authModalVisible && Selected(screen.State()) == Info;
    screen.OnDismissInfo();
    shown := Selected(screen.State());
  }
}
