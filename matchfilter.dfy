/** The two matchmaking rules applied to session search results: the menu
    widget joins the first result whose match type equals the one it was set
    up with, while the character joins every result advertised as "FreeForAll". */
module MatchFilter {
  import opened Sessions

  /** Index of the first result, in the order the search returned them, whose
      match type is `matchType`; None when no result has it. */
  function SelectFirst(results: seq<SearchResult>, matchType: string): (r: Option<nat>)
    ensures r.Some? ==> r.value < |results| && Matches(results[r.value], matchType)
    ensures r.Some? ==> forall j :: 0 <= j < r.value ==> !Matches(results[j], matchType)
    ensures r.None? ==> forall j :: 0 <= j < |results| ==> !Matches(results[j], matchType)
    decreases |results|
  {
    if |results| == 0 then None
    else if Matches(results[0], matchType) then Some(0)
    else
      match SelectFirst(results[1..], matchType)
      case None => None
      case Some(i) => Some(i + 1)
  }

  /** The indices of all results whose match type is `matchType`, ascending. */
  function MatchIndices(results: seq<SearchResult>, matchType: string): (idx: seq<nat>)
    ensures forall k :: 0 <= k < |idx| ==> idx[k] < |results| && Matches(results[idx[k]], matchType)
    ensures forall k, l :: 0 <= k < l < |idx| ==> idx[k] < idx[l]
    ensures forall i :: 0 <= i < |results| && Matches(results[i], matchType) ==> i in idx
    decreases |results|
  {
    if |results| == 0 then []
    else
      var n := |results| - 1;
      MatchIndices(results[..n], matchType) + (if Matches(results[n], matchType) then [n] else [])
  }

  /** The join calls issued by scanning `results` and joining every match. */
  function JoinsFor(results: seq<SearchResult>, matchType: string): (joins: seq<Action>)
    ensures |joins| <= |results|
    ensures forall k :: 0 <= k < |joins| ==>
      joins[k].JoinSession? && Matches(joins[k].result, matchType)
    decreases |results|
  {
    if |results| == 0 then []
    else
      var n := |results| - 1;
      JoinsFor(results[..n], matchType) + (if Matches(results[n], matchType) then [JoinSession(results[n])] else [])
  }

  /** Scanning one more result adds its join when it matches. */
  lemma JoinsForStep(results: seq<SearchResult>, i: nat, matchType: string)
    requires i < |results|
    ensures JoinsFor(results[..i + 1], matchType) ==
      JoinsFor(results[..i], matchType) + (if Matches(results[i], matchType) then [JoinSession(results[i])] else [])
  {
    assert results[..i + 1][..i] == results[..i];
  }

  /** The set of positions of matching results. */
  ghost function MatchingPositions(results: seq<SearchResult>, matchType: string): set<nat>
  {
    set i: nat | i < |results| && Matches(results[i], matchType)
  }

  /** The k-th join is for the k-th matching result: one join per match, in
      result order. */
  lemma {:induction false} JoinsFollowMatchIndices(results: seq<SearchResult>, matchType: string)
    ensures |JoinsFor(results, matchType)| == |MatchIndices(results, matchType)|
    ensures forall k :: 0 <= k < |JoinsFor(results, matchType)| ==>
      JoinsFor(results, matchType)[k] == JoinSession(results[MatchIndices(results, matchType)[k]])
  {
    if |results| > 0 {
      var n := |results| - 1;
      var prefix := results[..n];
      JoinsFollowMatchIndices(prefix, matchType);
      var matched := Matches(results[n], matchType);
      var newJoins: seq<Action> := if matched then [JoinSession(results[n])] else [];
      var newIdx: seq<nat> := if matched then [n] else [];
      assert JoinsFor(results, matchType) == JoinsFor(prefix, matchType) + newJoins;
      assert MatchIndices(results, matchType) == MatchIndices(prefix, matchType) + newIdx;
      PairingExtends(results, n, JoinsFor(prefix, matchType), MatchIndices(prefix, matchType), newJoins, newIdx);
    }
  }

  /** Joins paired with the positions of `results[..n]` they are for stay
      paired when position `n` is added to both, or to neither. */
  lemma PairingExtends(results: seq<SearchResult>, n: nat, joins: seq<Action>, idx: seq<nat>,
                       newJoins: seq<Action>, newIdx: seq<nat>)
    requires n < |results| && |joins| == |idx|
    requires forall k :: 0 <= k < |idx| ==> idx[k] < n && joins[k] == JoinSession(results[..n][idx[k]])
    requires (newJoins == [] && newIdx == []) || (newJoins == [JoinSession(results[n])] && newIdx == [n])
    ensures |joins + newJoins| == |idx + newIdx|
    ensures forall k :: 0 <= k < |joins + newJoins| ==> (joins + newJoins)[k] == JoinSession(results[(idx + newIdx)[k]])
  {
    forall k | 0 <= k < |joins + newJoins| ensures (joins + newJoins)[k] == JoinSession(results[(idx + newIdx)[k]]) {
      if k < |joins| {
        assert results[..n][idx[k]] == results[idx[k]];
      }
    }
  }

  /** The number of joins equals the number of matching results. */
  lemma {:induction false} JoinCountIsMatchCount(results: seq<SearchResult>, matchType: string)
    ensures |JoinsFor(results, matchType)| == |MatchingPositions(results, matchType)|
  {
    if |results| == 0 {
      assert MatchingPositions(results, matchType) == {};
    } else {
      var n := |results| - 1;
      var prefix := results[..n];
      JoinCountIsMatchCount(prefix, matchType);
      var earlier := MatchingPositions(prefix, matchType);
      var last: set<nat> := if Matches(results[n], matchType) then {n} else {};
      PositionsExtend(results, matchType);
      assert n !in earlier;
      assert |earlier + last| == |earlier| + |last|;
    }
  }

  /** The matching positions of a non-empty list are those of all but its last
      result, plus the last position when that result matches. */
  lemma PositionsExtend(results: seq<SearchResult>, matchType: string)
    requires |results| > 0
    ensures MatchingPositions(results, matchType) ==
      MatchingPositions(results[..|results| - 1], matchType) +
      (if Matches(results[|results| - 1], matchType) then {|results| - 1} else {})
  {
    var n := |results| - 1;
    var prefix := results[..n];
    forall i: nat | i < n ensures results[i] == prefix[i] { }
  }

  /** The first join the all-matches rule issues is the one the first-match
      rule selects, and the first-match rule selects nothing exactly when the
      all-matches rule issues no join. */
  lemma {:induction false} FirstJoinIsSelected(results: seq<SearchResult>, matchType: string)
    ensures SelectFirst(results, matchType).None? <==> JoinsFor(results, matchType) == []
    ensures SelectFirst(results, matchType).Some? ==>
      JoinsFor(results, matchType)[0] == JoinSession(results[SelectFirst(results, matchType).value])
  {
    JoinsFollowMatchIndices(results, matchType);
    var idx := MatchIndices(results, matchType);
    match SelectFirst(results, matchType)
    case None =>
    case Some(i) =>
      assert i in idx;
      var k :| 0 <= k < |idx| && idx[k] == i;
      assert idx[0] <= i;
      assert Matches(results[idx[0]], matchType);
      assert idx[0] == i;
  }
}
