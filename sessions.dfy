/** Values shared by the lobby menu widget and the character: what a session
    search returns, the settings a session is created with, and the engine and
    online-subsystem calls the two components issue, recorded as actions. */
module Sessions {

  datatype Option<+T> = None | Some(value: T)

  /** How a handler ended: normally, or at a member call through a null pointer
      (the engine would crash there; the model stops and issues nothing). */
  datatype Outcome = Completed | NullDereference

  /** One entry of a session search. `matchType` is the advertised "MatchType"
      setting, absent when the session does not carry one. */
  datatype SearchResult = SearchResult(sessionId: string, owningUserName: string, matchType: Option<string>)

  /** The value a handler reads for the "MatchType" setting: it starts as the
      empty string and the lookup leaves it so when the setting is missing. */
  function MatchTypeOf(r: SearchResult): string
  {
    match r.matchType
    case Some(t) => t
    case None => ""
  }

  /** A character in ASCII lower case: 'A'..'Z' map to 'a'..'z', every other
      character is left as it is. */
  function Lower(c: char): (r: char)
    ensures !('A' <= r <= 'Z')
    ensures r != c ==> 'A' <= c <= 'Z' && r as int - c as int == 'a' as int - 'A' as int
  {
    if 'A' <= c <= 'Z' then (c as int - 'A' as int + 'a' as int) as char else c
  }

  /** A string in ASCII lower case, character by character. */
  function Lowered(s: string): (r: string)
    ensures forall i :: 0 <= i < |r| ==> !('A' <= r[i] <= 'Z')
    ensures forall i :: 0 <= i < |s| && !('A' <= s[i] <= 'Z') ==> i < |r| && r[i] == s[i]
  {
    seq(|s|, i requires 0 <= i < |s| => Lower(s[i]))
  }

  /** String equality as the engine's string type defines `==`: equal
      lengths, and equal characters once both are in lower case. */
  predicate EqualsIgnoreCase(a: string, b: string)
  {
    |a| == |b| && forall i :: 0 <= i < |a| ==> Lower(a[i]) == Lower(b[i])
  }

  /** Lowering a string twice is lowering it once. */
  lemma LoweredIsIdempotent(s: string)
    ensures Lowered(Lowered(s)) == Lowered(s)
  {
  }

  /** Comparing ignoring case is comparing the lower-cased strings. */
  lemma EqualsIgnoreCaseIsLoweredEquality(a: string, b: string)
    ensures EqualsIgnoreCase(a, b) <==> Lowered(a) == Lowered(b)
  {
    if Lowered(a) == Lowered(b) {
      forall i | 0 <= i < |a| ensures Lower(a[i]) == Lower(b[i]) {
        assert Lowered(a)[i] == Lowered(b)[i];
      }
    }
  }

  /** A result advertises `matchType` when its "MatchType" setting equals it
      ignoring case. */
  predicate Matches(r: SearchResult, matchType: string)
  {
    EqualsIgnoreCase(MatchTypeOf(r), matchType)
  }

  /** Matching ignores case in the setting: a result tagged "FREEFORALL"
      advertises "FreeForAll", one tagged "FreeForAl" does not. */
  lemma MatchIgnoresCase()
    ensures Matches(SearchResult("1", "a", Some("FREEFORALL")), "FreeForAll")
    ensures Matches(SearchResult("1", "a", Some("freeforall")), "FreeForAll")
    ensures !Matches(SearchResult("1", "a", Some("FreeForAl")), "FreeForAll")
  {
  }

  /** Settings handed to the online session interface when a session is created. */
  datatype SessionSettings = SessionSettings(
    isLanMatch: bool,
    numPublicConnections: int,
    allowJoinInProgress: bool,
    allowJoinViaPresence: bool,
    shouldAdvertise: bool,
    usesPresence: bool,
    matchType: string)

  /** A session search object: its query and the results the provider fills in. */
  datatype SessionSearch = SessionSearch(
    maxSearchResults: int,
    isLanQuery: bool,
    presenceQuery: bool,
    searchResults: seq<SearchResult>)

  /** Outcome codes a join completion reports; both handlers ignore them. */
  datatype JoinResult =
    | Success
    | SessionIsFull
    | SessionDoesNotExist
    | CouldNotRetrieveAddress
    | AlreadyInSession
    | UnknownError

  /** Calls into the engine or an online subsystem, in the order issued. */
  datatype Action =
    | CreateSession(settings: SessionSettings)
    | FindSessions(maxSearchResults: int)
    | JoinSession(result: SearchResult)
    | DestroySession
    | ServerTravel(url: string)
    | ClientTravel(address: string)
}
