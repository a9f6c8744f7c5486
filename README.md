# Session flow of the MultiPlugin lobby

This project models the session-flow logic of two Unreal Engine classes of the
MultiPlugin repository and proves properties of it in Dafny:

- the lobby plugin's menu widget (`UMenuWidget`), whose Host and Join buttons
  drive the plugin's sessions subsystem and whose completion handlers travel to
  the lobby, pick a search result to join, and travel to a joined session;
- the session commands of the third-person character (`AMultiPluginCharacter`),
  which talk to the online session interface directly: create a game session
  (destroying an existing one first), search, join every "FreeForAll" result,
  and travel when a create or a join completes.

Every call either class makes into the engine or an online subsystem is an
`Action` appended to the object's `log` (`CreateSession`, `FindSessions`,
`JoinSession`, `DestroySession`, `ServerTravel`, `ClientTravel`). What the
engine or the provider answers (success flags, search results, whether a world,
a player controller or an existing session is there, the resolved connect
string) is a constructor argument or a method input.

Match types are compared the way the engine's string type compares with `==`:
ignoring case, so a session tagged "freeforall" is a "FreeForAll" session.

Files:

- `sessions.dfy` (module `Sessions`): search results, session settings, the
  session search object, join result codes, handler outcomes and actions, and
  the case-insensitive string comparison the match-type tests use.
- `matchfilter.dfy` (module `MatchFilter`): the two selection rules as pure
  functions. `SelectFirst` is the widget's rule (the first result of the
  requested match type); `JoinsFor` is the character's rule (a join for every
  match, in result order); lemmas relate them.
- `lobbymenu.dfy` (module `LobbyMenu`): class `MenuWidget`, the widget's state
  (button flags, lobby path, connection count, match type, whether the
  subsystem is bound, input mode) and its handlers, each proved against its
  contract; `WidgetTrace` is the invariant that the widget never issues a create
  or a destroy and searches only for 10000 results.
- `character.dfy` (module `Character`): class `MultiPluginCharacter` and its
  session handlers. The log predicate `CharacterTrace` says that every destroy
  is followed directly by a create, creates carry the fixed game settings,
  searches ask for 10000 results, joins are only for "FreeForAll" sessions and
  the only server travel is to the lobby. The class invariant `Valid` adds that
  the stored search keeps its query and that each delegate registration
  counter equals the number of calls of its kind in the log.

Some of the code's behaviour is worth stating up front; the model keeps it as
written:

- The widget's `HostButtonClicked` guard is inverted: it asks the subsystem to
  create a session only when the subsystem pointer is null. The model keeps the
  guard as written; that branch returns `NullDereference` and issues nothing, so
  the widget never issues a create at all.
- There is no guard against a second request of the same kind while one is in
  flight, the destroy is not waited for before the create is issued, and a
  failed join travels like a successful one (both join handlers ignore the
  result code).
- The widget joins only the first matching result, while the character joins
  every "FreeForAll" result with no early exit.
- The widget travels to the lobby after a create completion whether or not the
  create succeeded, provided a world exists.

## Model

| member | source | states |
|---|---|---|
| Sessions.Lowered | Source/MultiPlugin/MultiPluginCharacter.cpp:176 | the lower-cased form of a string holds no upper-case ASCII letter and keeps every other character of the string in place |
| Sessions.EqualsIgnoreCaseIsLoweredEquality | Source/MultiPlugin/MultiPluginCharacter.cpp:176 | two strings compare equal ignoring case exactly when their lower-cased forms are equal |
| MatchFilter.SelectFirst | Plugins/LobbyPlugin/Source/LobbyPlugin/Private/MenuWidget.cpp:118-127 | Some(i) exactly for the lowest index whose MatchType setting (missing reads as "") equals the requested one ignoring case; None exactly when no result matches |
| MatchFilter.MatchIndices | Source/MultiPlugin/MultiPluginCharacter.cpp:164-189 | the positions of all matching results: each one matches, they strictly increase, and every matching position is among them |
| MatchFilter.JoinsFor | Source/MultiPlugin/MultiPluginCharacter.cpp:164-189 | the joins issued by joining every match: at most one per result, each a join of a result whose match type equals the requested one ignoring case |
| MatchFilter.JoinsFollowMatchIndices | Source/MultiPlugin/MultiPluginCharacter.cpp:164-189 | the k-th join is a join of the k-th matching result: one join per match, in result order |
| MatchFilter.JoinCountIsMatchCount | Source/MultiPlugin/MultiPluginCharacter.cpp:176-188 | the number of joins equals the number of matching results |
| MatchFilter.FirstJoinIsSelected | Plugins/LobbyPlugin/Source/LobbyPlugin/Private/MenuWidget.cpp:118-127 | the widget selects nothing exactly when the all-matches rule joins nothing, and otherwise selects the result the all-matches rule joins first |
| Character.AppendJoins | Source/MultiPlugin/MultiPluginCharacter.cpp:176-188 | appending the joins of a search keeps every destroy directly followed by a create and every join a "FreeForAll" join, adds exactly one to the join count per join and leaves the create and find counts alone |
| LobbyMenu.MenuWidget.MenuSetup | Plugins/LobbyPlugin/Source/LobbyPlugin/Private/MenuWidget.cpp:10-47 | path to lobby becomes the lobby path plus "?listen", connection count and match type are copied unchanged, the subsystem is rebound only when a game instance exists, callbacks are bound when a subsystem is, UI-only input with a cursor when world and controller exist; buttons and log unchanged |
| LobbyMenu.MenuWidget.HostButtonClicked | Plugins/LobbyPlugin/Source/LobbyPlugin/Private/MenuWidget.cpp:76-83 | the Host button is disabled in every case and nothing is issued; with no subsystem the inverted guard ends in a null dereference |
| LobbyMenu.MenuWidget.OnCreateSession | Plugins/LobbyPlugin/Source/LobbyPlugin/Private/MenuWidget.cpp:85-109 | with a world, exactly ServerTravel(path to lobby) is issued whatever the success flag and the Host button is untouched; without one nothing is issued and the Host button is re-enabled |
| LobbyMenu.MenuWidget.OnFindSessions | Plugins/LobbyPlugin/Source/LobbyPlugin/Private/MenuWidget.cpp:111-133 | without a subsystem nothing changes; otherwise exactly one join, of the first result whose match type equals the widget's ignoring case (SelectFirst), with the Join button untouched; with no match nothing is issued and the Join button is re-enabled iff the search failed or returned no result |
| LobbyMenu.MenuWidget.OnJoinSession | Plugins/LobbyPlugin/Source/LobbyPlugin/Private/MenuWidget.cpp:135-153 | ClientTravel(address) is issued iff the online subsystem, its session interface, the game instance and a local controller exist, whatever the join result; with subsystem and interface but no game instance the unchecked lookup is a null dereference; no button changes |
| LobbyMenu.MenuWidget.JoinButtonClicked | Plugins/LobbyPlugin/Source/LobbyPlugin/Private/MenuWidget.cpp:163-170 | the Join button is disabled; FindSessions(10000) is issued iff a subsystem is bound |
| LobbyMenu.MenuWidget.MenuTearDown | Plugins/LobbyPlugin/Source/LobbyPlugin/Private/MenuWidget.cpp:172-186 | game-only input with a hidden cursor when world and controller exist; nothing else changes |
| Character.MultiPluginCharacter.constructor | Source/MultiPlugin/MultiPluginCharacter.cpp:13-20 | no search object, no delegate registered, nothing issued; interface validity and world presence as given |
| Character.MultiPluginCharacter.CreateGameSession | Source/MultiPlugin/MultiPluginCharacter.cpp:84-112 | with an invalid interface nothing happens; otherwise DestroySession directly followed by CreateSession when a game session exists, only CreateSession when none does, with 4 public connections, no LAN, join in progress, join via presence, advertising, presence and match type "FreeForAll"; one create delegate registered |
| Character.MultiPluginCharacter.JoinGameSession | Source/MultiPlugin/MultiPluginCharacter.cpp:114-130 | with an invalid interface nothing happens; otherwise the stored search asks for 10000 non-LAN presence results, one FindSessions(10000) is issued and one find delegate registered |
| Character.MultiPluginCharacter.ReceiveSearchResults | Source/MultiPlugin/MultiPluginCharacter.cpp:164 | the provider's results are stored in the search object when one exists; its query is untouched |
| Character.MultiPluginCharacter.OnCreateSessionComplete | Source/MultiPlugin/MultiPluginCharacter.cpp:132-155 | ServerTravel("/Game/ThirdPerson/Maps/Lobby?listen") is issued iff the create succeeded and the character has a world; otherwise nothing |
| Character.MultiPluginCharacter.OnFindSessionsComplete | Source/MultiPlugin/MultiPluginCharacter.cpp:157-190 | nothing is issued when the search failed or the interface is invalid; otherwise a null search object is a null dereference, and a present one issues JoinsFor(its results, "FreeForAll"), one join per result whose match type is "FreeForAll" ignoring case, in result order, and registers one join delegate per join |
| Character.MultiPluginCharacter.OnJoinSessionComplete | Source/MultiPlugin/MultiPluginCharacter.cpp:192-214 | ClientTravel(address) is issued iff the interface is valid, the connect-string lookup succeeded and a local controller exists, whatever the join result |

## Left out

- Character movement, camera, capsule and input bindings (MultiPluginCharacter.cpp:21-45, 61-82, 216-265): floating-point engine calls with no session logic.
- On-screen debug messages: output only.
- `Initialize` (binding the button click handlers), `AddToViewport`, `SetVisibility`, `bIsFocusable` and `RemoveFromParent`: widget layout; click handlers are modelled as direct method calls.
- `NativeDestruct` only calls `MenuTearDown`, which is modelled; `OnDestroySession` and `OnStartSession` have empty bodies.
- The sessions subsystem and the online subsystem themselves: their create, find, join, destroy and start behaviour are foreign; they appear only as logged calls and as method inputs.
- Asynchronous delivery and threading: every callback is a sequential method call.
- `MultiPluginGameMode` and the build target: pawn lookup and build configuration.
- `MenuWidget.h` is not part of this model: the widget's default connection count, match type and lobby path are constructor arguments.
- The character's constructor does not assign `OnlineSessionInterface` (the lines that would are commented out); the model takes its validity as a constructor argument and keeps it fixed, as no modelled handler assigns it.
- Delegate registrations: the widget's five `AddDynamic`/`AddUObject` calls are one flag; the character's `AddOn...Delegate_Handle` calls are counters rather than log entries, so that the log holds only session commands.
- Unchecked dereferences other than the three modelled as `NullDereference`: the model assumes the widget's Host and Join button pointers exist, and that the character's `GetWorld()`, the world's first local player and that player's net id (MultiPluginCharacter.cpp:110, 128, 186) and the character's `GetGameInstance()` (MultiPluginCharacter.cpp:208) are non-null; a character without a world still issues its create, search and joins.
- The advertisement type of the "MatchType" setting (advertised through the online service and in ping replies): it does not affect which sessions either class joins, so `SessionSettings` records only the value.
- Case folding beyond ASCII: the case-insensitive comparison lowers only 'A'..'Z'; the engine's folding of other letters is not modelled.
- Session names and net ids: every call uses the game session name, so actions do not carry it; the session name passed to the character's completion handlers only feeds debug output.
- A "MatchType" setting of a non-string type: settings are modelled as an optional string.
- `NumberOfPublicConnections` is an `int32` that is only copied, so no wrap-around arises.
