/** The session commands of the third-person character: create a game
    session (destroying an existing one first), search for sessions, join
    every "FreeForAll" result, and travel once a create or join completes.
    Calls into the online session interface and the engine are appended to
    `log`; each delegate registration increments a counter instead, so that
    the log shows only the session commands themselves. */
module Character {
  import opened Sessions
  import opened MatchFilter

  const FreeForAll: string := "FreeForAll"
  const LobbyUrl: string := "/Game/ThirdPerson/Maps/Lobby?listen"

  /** The settings every session the character creates carries. */
  const GameSessionSettings: SessionSettings := SessionSettings(
    isLanMatch := false,
    numPublicConnections := 4,
    allowJoinInProgress := true,
    allowJoinViaPresence := true,
    shouldAdvertise := true,
    usesPresence := true,
    matchType := FreeForAll)

  /** The search `JoinGameSession` stores before any result arrives. */
  const GameSessionSearch: SessionSearch := SessionSearch(
    maxSearchResults := 10000,
    isLanQuery := false,
    presenceQuery := true,
    searchResults := [])

  /** The kinds of call whose completion delegates the character registers. */
  datatype Kind = IsCreate | IsFind | IsJoin | Untracked

  function KindOf(a: Action): Kind
  {
    match a
    case CreateSession(_) => IsCreate
    case FindSessions(_) => IsFind
    case JoinSession(_) => IsJoin
    case _ => Untracked
  }

  /** Number of calls of kind `p` among the first `n` of a log. */
  function CountUpTo(log: seq<Action>, n: nat, p: Kind): nat
    requires n <= |log|
  {
    if n == 0 then 0 else CountUpTo(log, n - 1, p) + (if KindOf(log[n - 1]) == p then 1 else 0)
  }

  /** Number of calls of one kind in a log. */
  function Count(log: seq<Action>, p: Kind): nat
  {
    CountUpTo(log, |log|, p)
  }

  lemma {:induction false} CountUpToPrefix(log: seq<Action>, more: seq<Action>, n: nat, p: Kind)
    requires n <= |log|
    ensures CountUpTo(log + more, n, p) == CountUpTo(log, n, p)
  {
    if n > 0 {
      CountUpToPrefix(log, more, n - 1, p);
      assert (log + more)[n - 1] == log[n - 1];
    }
  }

  lemma {:induction false} CountUpToAppend(log: seq<Action>, more: seq<Action>, m: nat, p: Kind)
    requires m <= |more|
    ensures CountUpTo(log + more, |log| + m, p) == Count(log, p) + CountUpTo(more, m, p)
  {
    if m == 0 {
      CountUpToPrefix(log, more, |log|, p);
    } else {
      CountUpToAppend(log, more, m - 1, p);
      assert (log + more)[|log| + m - 1] == more[m - 1];
    }
  }

  lemma CountAppend(log: seq<Action>, more: seq<Action>, p: Kind)
    ensures Count(log + more, p) == Count(log, p) + Count(more, p)
  {
    CountUpToAppend(log, more, |more|, p);
  }

  /** A sequence of joins counts as that many joins and no create or find. */
  lemma {:induction false} CountOfJoins(joins: seq<Action>)
    requires forall k :: 0 <= k < |joins| ==> joins[k].JoinSession?
    ensures Count(joins, IsJoin) == |joins|
    ensures Count(joins, IsCreate) == 0 && Count(joins, IsFind) == 0
  {
    CountOfJoinsUpTo(joins, |joins|);
  }

  lemma {:induction false} CountOfJoinsUpTo(joins: seq<Action>, n: nat)
    requires n <= |joins|
    requires forall k :: 0 <= k < |joins| ==> joins[k].JoinSession?
    ensures CountUpTo(joins, n, IsJoin) == n
    ensures CountUpTo(joins, n, IsCreate) == 0 && CountUpTo(joins, n, IsFind) == 0
  {
    if n > 0 {
      CountOfJoinsUpTo(joins, n - 1);
    }
  }

  /** A single call counts once, for its own kind. */
  lemma CountSingle(a: Action)
    ensures forall p :: Count([a], p) == if KindOf(a) == p then 1 else 0
  {
    forall p ensures Count([a], p) == if KindOf(a) == p then 1 else 0 {
      assert CountUpTo([a], 0, p) == 0;
    }
  }

  /** Two calls count once each, for their own kinds. */
  lemma CountPair(a: Action, b: Action)
    ensures forall p :: Count([a, b], p) == (if KindOf(a) == p then 1 else 0) + (if KindOf(b) == p then 1 else 0)
  {
    forall p ensures Count([a, b], p) == (if KindOf(a) == p then 1 else 0) + (if KindOf(b) == p then 1 else 0) {
      assert CountUpTo([a, b], 0, p) == 0;
      assert CountUpTo([a, b], 1, p) == if KindOf(a) == p then 1 else 0;
    }
  }

  /** What the character can ever have issued: a destroy is always followed
      directly by a create; creates carry the game settings; searches ask for
      10000 results; joins are for "FreeForAll" sessions; the only server travel
      is to the lobby. */
  predicate CharacterTrace(log: seq<Action>)
  {
    forall k :: 0 <= k < |log| ==>
      (log[k].DestroySession? ==> k + 1 < |log| && CreateFollows(log, k)) &&
      (log[k].CreateSession? ==> log[k].settings == GameSessionSettings) &&
      (log[k].FindSessions? ==> log[k].maxSearchResults == GameSessionSearch.maxSearchResults) &&
      (log[k].JoinSession? ==> Matches(log[k].result, FreeForAll)) &&
      (log[k].ServerTravel? ==> log[k].url == LobbyUrl)
  }

  predicate CreateFollows(log: seq<Action>, k: nat)
    requires k + 1 < |log|
  {
    log[k + 1].CreateSession?
  }

  /** Appending a trace keeps the trace well formed and adds up the counts. */
  lemma Extend(log: seq<Action>, more: seq<Action>)
    requires CharacterTrace(log) && CharacterTrace(more)
    ensures CharacterTrace(log + more)
    ensures forall p :: Count(log + more, p) == Count(log, p) + Count(more, p)
  {
    forall p ensures Count(log + more, p) == Count(log, p) + Count(more, p) {
      CountAppend(log, more, p);
    }
  }

  /** Appending the joins of a search keeps the trace well formed and adds
      one to the join count per join. */
  lemma AppendJoins(log: seq<Action>, results: seq<SearchResult>)
    requires CharacterTrace(log)
    ensures CharacterTrace(log + JoinsFor(results, FreeForAll))
    ensures Count(log + JoinsFor(results, FreeForAll), IsJoin) == Count(log, IsJoin) + |JoinsFor(results, FreeForAll)|
    ensures Count(log + JoinsFor(results, FreeForAll), IsCreate) == Count(log, IsCreate)
    ensures Count(log + JoinsFor(results, FreeForAll), IsFind) == Count(log, IsFind)
  {
    var joins := JoinsFor(results, FreeForAll);
    CountOfJoins(joins);
    Extend(log, joins);
  }

  class MultiPluginCharacter {
    /** The `OnlineSessionInterface` pointer is valid. */
    const sessionInterfaceValid: bool
    /** The character lives in a world. Fixed for its lifetime. */
    const hasWorld: bool

    /** The `SessionSearch` pointer: None while null. */
    var sessionSearch: Option<SessionSearch>
    /** How many times each completion delegate has been added to the interface. */
    var createCompleteHandles: nat
    var findCompleteHandles: nat
    var joinCompleteHandles: nat
    var log: seq<Action>

    /** The log is a character trace, the stored search keeps the query
        `JoinGameSession` gave it, and each delegate counter equals the number
        of calls of its kind in the log. */
    ghost predicate Valid()
      reads this
    {
      CharacterTrace(log) &&
      (sessionSearch.Some? ==> sessionSearch.value.(searchResults := []) == GameSessionSearch) &&
      createCompleteHandles == Count(log, IsCreate) &&
      findCompleteHandles == Count(log, IsFind) &&
      joinCompleteHandles == Count(log, IsJoin)
    }

    constructor (interfaceValid: bool, world: bool)
      ensures Valid()
      ensures sessionInterfaceValid == interfaceValid && hasWorld == world
      ensures sessionSearch.None? && log == []
      ensures createCompleteHandles == 0 && findCompleteHandles == 0 && joinCompleteHandles == 0
    {
      sessionInterfaceValid, hasWorld := interfaceValid, world;
      sessionSearch := None;
      createCompleteHandles, findCompleteHandles, joinCompleteHandles := 0, 0, 0;
      log := [];
    }

    /** With a valid interface: destroy the named game session if one exists,
        register the create delegate and create a session with the game
        settings. `existingSession` is whether the interface knows that session. */
    method CreateGameSession(existingSession: bool)
      requires Valid()
      modifies this`log, this`createCompleteHandles
      ensures Valid()
      ensures !sessionInterfaceValid ==> log == old(log) && createCompleteHandles == old(createCompleteHandles)
      ensures sessionInterfaceValid ==>
        createCompleteHandles == old(createCompleteHandles) + 1 &&
        log == old(log) + (if existingSession then [DestroySession] else [])
                        + [CreateSession(GameSessionSettings)]
    {
      if !sessionInterfaceValid {
        return;
      }
      var create := CreateSession(GameSessionSettings);
      if existingSession {
        CountPair(DestroySession, create);
        assert CreateFollows([DestroySession, create], 0);
        Extend(log, [DestroySession, create]);
        log := log + [DestroySession, create];
      } else {
        CountSingle(create);
        Extend(log, [create]);
        log := log + [create];
      }
      createCompleteHandles := createCompleteHandles + 1;
    }

    /** With a valid interface: register the find delegate, store a fresh
        search for up to 10000 non-LAN presence sessions and start it. */
    method JoinGameSession()
      requires Valid()
      modifies this`log, this`findCompleteHandles, this`sessionSearch
      ensures Valid()
      ensures !sessionInterfaceValid ==>
        log == old(log) && findCompleteHandles == old(findCompleteHandles) &&
        sessionSearch == old(sessionSearch)
      ensures sessionInterfaceValid ==>
        findCompleteHandles == old(findCompleteHandles) + 1 &&
        sessionSearch == Some(GameSessionSearch) &&
        log == old(log) + [FindSessions(GameSessionSearch.maxSearchResults)]
    {
      if !sessionInterfaceValid {
        return;
      }
      findCompleteHandles := findCompleteHandles + 1;
      sessionSearch := Some(GameSessionSearch);
      var issued := [FindSessions(GameSessionSearch.maxSearchResults)];
      CountSingle(issued[0]);
      Extend(log, issued);
      log := log + issued;
    }

    /** The online subsystem fills the stored search with what it found
        (nothing happens when no search object exists). */
    method ReceiveSearchResults(found: seq<SearchResult>)
      requires Valid()
      modifies this`sessionSearch
      ensures Valid()
      ensures old(sessionSearch).None? ==> sessionSearch.None?
      ensures old(sessionSearch).Some? ==> sessionSearch == Some(old(sessionSearch).value.(searchResults := found))
    {
      if sessionSearch.Some? {
        sessionSearch := Some(sessionSearch.value.(searchResults := found));
      }
    }

    /** On a successful create, travel to the lobby as a listen server when a
        world exists; a failed create issues nothing. */
    method OnCreateSessionComplete(wasSuccessful: bool)
      requires Valid()
      modifies this`log
      ensures Valid()
      ensures log == old(log) + (if wasSuccessful && hasWorld then [ServerTravel(LobbyUrl)] else [])
    {
      if wasSuccessful {
        if hasWorld {
          var issued := [ServerTravel(LobbyUrl)];
          CountSingle(issued[0]);
          Extend(log, issued);
          log := log + issued;
        }
      }
    }

    /** After a successful search with a valid interface: for every stored
        result, in order, whose match type is "FreeForAll", register the join
        delegate and join it. There is no early exit. A null search object
        stops the handler at its first dereference. */
    method OnFindSessionsComplete(wasSuccessful: bool) returns (outcome: Outcome)
      requires Valid()
      modifies this`log, this`joinCompleteHandles
      ensures Valid()
      ensures outcome == NullDereference <==> wasSuccessful && sessionInterfaceValid && sessionSearch.None?
      ensures !(wasSuccessful && sessionInterfaceValid && sessionSearch.Some?) ==>
        log == old(log) && joinCompleteHandles == old(joinCompleteHandles)
      ensures wasSuccessful && sessionInterfaceValid && sessionSearch.Some? ==>
        var joins := JoinsFor(sessionSearch.value.searchResults, FreeForAll);
        log == old(log) + joins && joinCompleteHandles == old(joinCompleteHandles) + |joins|
    {
      if !wasSuccessful || !sessionInterfaceValid {
        return Completed;
      }
      if sessionSearch.None? {
        return NullDereference;
      }
      var results := sessionSearch.value.searchResults;
      var i := 0;
      while i < |results|
        invariant 0 <= i <= |results|
        invariant log == old(log) + JoinsFor(results[..i], FreeForAll)
        invariant joinCompleteHandles == old(joinCompleteHandles) + |JoinsFor(results[..i], FreeForAll)|
      {
        var result := results[i];
        var matchType := MatchTypeOf(result);
        JoinsForStep(results, i, FreeForAll);
        if EqualsIgnoreCase(matchType, FreeForAll) {
          joinCompleteHandles := joinCompleteHandles + 1;
          log := log + [JoinSession(result)];
        }
        i := i + 1;
      }
      assert results[..i] == results;
      AppendJoins(old(log), results);
      return Completed;
    }

    /** With a valid interface: when the connect-string lookup succeeds and a
        local player controller exists, travel to `address`. The join result is
        not consulted. */
    method OnJoinSessionComplete(result: JoinResult, connectStringFound: bool, address: string,
                                 localController: bool)
      requires Valid()
      modifies this`log
      ensures Valid()
      ensures log == old(log) + (if sessionInterfaceValid && connectStringFound && localController
                                 then [ClientTravel(address)] else [])
    {
      if !sessionInterfaceValid {
        return;
      }
      if connectStringFound {
        if localController {
          var issued := [ClientTravel(address)];
          CountSingle(issued[0]);
          Extend(log, issued);
          log := log + issued;
        }
      }
    }
  }

  /** Three results of which only the middle one does not match yield the
      joins of the outer two, in order. */
  lemma JoinsAroundMismatch(first: SearchResult, middle: SearchResult, last: SearchResult)
    requires Matches(first, FreeForAll) && !Matches(middle, FreeForAll) && Matches(last, FreeForAll)
    ensures JoinsFor([first, middle, last], FreeForAll) == [JoinSession(first), JoinSession(last)]
  {
    var found := [first, middle, last];
    JoinsForStep(found, 0, FreeForAll);
    JoinsForStep(found, 1, FreeForAll);
    JoinsForStep(found, 2, FreeForAll);
    assert found[..0] == [] && found[..3] == found;
  }

  /** A client of the character's contracts: with an existing session the
      destroy is issued directly before the create. */
  method CreateFlowExample()
  {
    var character := new MultiPluginCharacter(true, true);
    character.CreateGameSession(true);
    assert character.log == [DestroySession, CreateSession(GameSessionSettings)];
    assert character.createCompleteHandles == 1;
  }

  /** A client of the character's contracts: a search whose results hold two
      "FreeForAll" sessions around a "Ranked" one issues two joins and
      registers two join delegates. */
  method SearchFlowExample()
  {
    var character := new MultiPluginCharacter(true, true);
    character.JoinGameSession();
    var open1 := SearchResult("2", "b", Some("FreeForAll"));
    var ranked := SearchResult("1", "a", Some("Ranked"));
    var open2 := SearchResult("3", "c", Some("FreeForAll"));
    var found := [open1, ranked, open2];
    character.ReceiveSearchResults(found);
    JoinsAroundMismatch(open1, ranked, open2);
    var outcome := character.OnFindSessionsComplete(true);
    assert outcome == Completed;
    assert character.joinCompleteHandles == 2;
  }
}
