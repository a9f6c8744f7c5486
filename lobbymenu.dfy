/** The lobby plugin's menu widget: a Host and a Join button that drive the
    plugin's sessions subsystem, and the completion handlers the subsystem calls
    back. Every call the widget makes into the subsystem or the engine is
    appended to `log`. */
module LobbyMenu {
  import opened Sessions
  import opened MatchFilter

  /** The player controller's input mode as the widget leaves it. */
  datatype InputMode = EngineDefault | UIOnly | GameOnly

  /** The search size the Join button asks the subsystem for. */
  const JoinSearchSize: int := 10000

  /** What the widget can ever have issued: travel and join calls, and
      searches of the fixed size; never a create or a destroy (the host path
      reaches the subsystem only through a null pointer). */
  predicate WidgetTrace(log: seq<Action>)
  {
    forall k :: 0 <= k < |log| ==>
      !log[k].CreateSession? && !log[k].DestroySession? &&
      (log[k].FindSessions? ==> log[k].maxSearchResults == JoinSearchSize)
  }

  class MenuWidget {
    /** Whether the widget lives in a world, that world has a first player
        controller, and the widget has a game instance. Fixed for its lifetime. */
    const hasWorld: bool
    const hasPlayerController: bool
    const hasGameInstance: bool

    var hostEnabled: bool
    var joinEnabled: bool
    var pathToLobby: string
    var numPublicConnections: int
    var matchType: string
    /** The `SessionsSubsystem` pointer is non-null. */
    var subsystemBound: bool
    /** The completion handlers have been added to the subsystem's delegates. */
    var callbacksBound: bool
    var inputMode: InputMode
    var cursorShown: bool
    var log: seq<Action>

    ghost predicate Valid()
      reads this
    {
      WidgetTrace(log)
    }

    /** A fresh widget: both buttons enabled, no subsystem yet, nothing issued.
        The initial connection count, match type and lobby path are the
        widget's configured defaults. */
    constructor (world: bool, playerController: bool, gameInstance: bool,
                 defaultConnections: int, defaultMatchType: string, defaultLobbyPath: string)
      ensures Valid()
      ensures hasWorld == world && hasPlayerController == playerController && hasGameInstance == gameInstance
      ensures hostEnabled && joinEnabled && !subsystemBound && !callbacksBound
      ensures numPublicConnections == defaultConnections && matchType == defaultMatchType
      ensures pathToLobby == defaultLobbyPath
      ensures inputMode == EngineDefault && !cursorShown && log == []
    {
      hasWorld, hasPlayerController, hasGameInstance := world, playerController, gameInstance;
      hostEnabled, joinEnabled := true, true;
      numPublicConnections, matchType, pathToLobby := defaultConnections, defaultMatchType, defaultLobbyPath;
      subsystemBound, callbacksBound := false, false;
      inputMode, cursorShown := EngineDefault, false;
      log := [];
    }

    /** Stores the lobby URL and the session parameters, gives the UI the input
        focus, and binds the sessions subsystem of the game instance.
        `instanceHasSubsystem` is whether the game instance provides one. */
    method MenuSetup(numberOfPublicConnections: int, typeOfMatch: string, lobbyPath: string,
                     instanceHasSubsystem: bool)
      requires Valid()
      modifies this`pathToLobby, this`numPublicConnections, this`matchType,
               this`subsystemBound, this`callbacksBound, this`inputMode, this`cursorShown
      ensures Valid()
      ensures pathToLobby == lobbyPath + "?listen"
      ensures numPublicConnections == numberOfPublicConnections && matchType == typeOfMatch
      ensures subsystemBound == if hasGameInstance then instanceHasSubsystem else old(subsystemBound)
      ensures callbacksBound == (old(callbacksBound) || subsystemBound)
      ensures if hasWorld && hasPlayerController
              then inputMode == UIOnly && cursorShown
              else inputMode == old(inputMode) && cursorShown == old(cursorShown)
    {
      pathToLobby := lobbyPath + "?listen";
      numPublicConnections := numberOfPublicConnections;
      matchType := typeOfMatch;
      if hasWorld && hasPlayerController {
        inputMode, cursorShown := UIOnly, true;
      }
      if hasGameInstance {
        subsystemBound := instanceHasSubsystem;
      }
      if subsystemBound {
        callbacksBound := true;
      }
    }

    /** Disables the Host button. The guard is inverted: the subsystem is asked
        to create a session only when its pointer is null, so that branch ends
        in a null dereference and issues nothing; with a bound subsystem
        nothing is issued either. */
    method HostButtonClicked() returns (outcome: Outcome)
      requires Valid()
      modifies this`hostEnabled
      ensures Valid()
      ensures !hostEnabled
      ensures log == old(log)
      ensures outcome == if subsystemBound then Completed else NullDereference
    {
      hostEnabled := false;
      if !subsystemBound {
        return NullDereference;
      }
      return Completed;
    }

    /** The subsystem's create completion: travel to the lobby as a listen
        server whenever there is a world (success or not), otherwise re-enable
        the Host button. */
    method OnCreateSession(wasSuccessful: bool)
      requires Valid()
      modifies this`log, this`hostEnabled
      ensures Valid()
      ensures hasWorld ==> log == old(log) + [ServerTravel(pathToLobby)] && hostEnabled == old(hostEnabled)
      ensures !hasWorld ==> log == old(log) && hostEnabled
    {
      if hasWorld {
        log := log + [ServerTravel(pathToLobby)];
      } else {
        hostEnabled := true;
      }
    }

    /** The subsystem's find completion: join the first result of the widget's
        match type and stop; with no match, re-enable the Join button when the
        search failed or found nothing. Without a subsystem it does nothing. */
    method OnFindSessions(sessionResults: seq<SearchResult>, wasSuccessful: bool)
      requires Valid()
      modifies this`log, this`joinEnabled
      ensures Valid()
      ensures !subsystemBound ==> log == old(log) && joinEnabled == old(joinEnabled)
      ensures subsystemBound ==>
        match SelectFirst(sessionResults, matchType)
        case Some(i) => log == old(log) + [JoinSession(sessionResults[i])] && joinEnabled == old(joinEnabled)
        case None =>
          (log == old(log) &&
           joinEnabled == (if !wasSuccessful || |sessionResults| == 0 then true else old(joinEnabled)))
    {
      if !subsystemBound {
        return;
      }
      var i := 0;
      while i < |sessionResults|
        invariant 0 <= i <= |sessionResults|
        invariant forall j :: 0 <= j < i ==> !Matches(sessionResults[j], matchType)
        invariant log == old(log) && joinEnabled == old(joinEnabled)
      {
        var result := sessionResults[i];
        var settingsValue := MatchTypeOf(result);
        if EqualsIgnoreCase(settingsValue, matchType) {
          log := log + [JoinSession(result)];
          return;
        }
        i := i + 1;
      }
      if !wasSuccessful || |sessionResults| == 0 {
        joinEnabled := true;
      }
    }

    /** The subsystem's join completion: travel to the resolved address when
        the online subsystem, its session interface and a local player
        controller exist. The controller is looked up through the game
        instance without a null check, so a widget without one stops there.
        The join result is not consulted, and neither button changes.
        `address` is what the connect-string lookup left behind. */
    method OnJoinSession(result: JoinResult, onlineSubsystem: bool, sessionInterfaceValid: bool,
                         address: string, localController: bool) returns (outcome: Outcome)
      requires Valid()
      modifies this`log
      ensures Valid()
      ensures outcome == NullDereference <==> onlineSubsystem && sessionInterfaceValid && !hasGameInstance
      ensures log == old(log) + (if onlineSubsystem && sessionInterfaceValid && hasGameInstance && localController
                                 then [ClientTravel(address)] else [])
    {
      if onlineSubsystem {
        if sessionInterfaceValid {
          if !hasGameInstance {
            return NullDereference;
          }
          if localController {
            log := log + [ClientTravel(address)];
          }
        }
      }
      return Completed;
    }

    /** Disables the Join button and, when a subsystem is bound, asks it for
        a search of `JoinSearchSize` results. */
    method JoinButtonClicked()
      requires Valid()
      modifies this`log, this`joinEnabled
      ensures Valid()
      ensures !joinEnabled
      ensures log == old(log) + (if subsystemBound then [FindSessions(JoinSearchSize)] else [])
    {
      joinEnabled := false;
      if subsystemBound {
        log := log + [FindSessions(JoinSearchSize)];
      }
    }

    /** Returns the player controller to game-only input with a hidden cursor. */
    method MenuTearDown()
      requires Valid()
      modifies this`inputMode, this`cursorShown
      ensures Valid()
      ensures if hasWorld && hasPlayerController
              then inputMode == GameOnly && !cursorShown
              else inputMode == old(inputMode) && cursorShown == old(cursorShown)
    {
      if hasWorld && hasPlayerController {
        inputMode, cursorShown := GameOnly, false;
      }
    }
  }

  /** A client of the widget's contracts: after a search that returns a
      "Ranked" session, then one tagged "freeforall" and one "FreeForAll",
      the widget joins the second result only (match types compare ignoring
      case), and the Join button stays disabled. */
  method JoinFlowExample()
  {
    var menu := new MenuWidget(true, true, true, 4, "FreeForAll", "");
    menu.MenuSetup(4, "FreeForAll", "/Game/Maps/Lobby", true);
    menu.JoinButtonClicked();
    assert menu.log == [FindSessions(JoinSearchSize)];
    var ranked := SearchResult("1", "a", Some("Ranked"));
    var open1 := SearchResult("2", "b", Some("freeforall"));
    var open2 := SearchResult("3", "c", Some("FreeForAll"));
    assert SelectFirst([ranked, open1, open2], "FreeForAll") == Some(1);
    menu.OnFindSessions([ranked, open1, open2], true);
    assert menu.log == [FindSessions(JoinSearchSize), JoinSession(open1)];
    assert !menu.joinEnabled;
    var outcome := menu.OnJoinSession(Success, true, true, "10.0.0.5:7777", true);
    assert outcome == Completed && menu.log[2] == ClientTravel("10.0.0.5:7777");
  }
}
