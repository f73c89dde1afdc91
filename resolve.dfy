/**
 * The reference resolvers: turning the text a player typed into a player of
 * the live roster (`get_player`) or into one of the two teams (`get_team`),
 * and the argument joiner (`join_arguments`).
 */
module Resolve {
  import opened Wrappers
  import opened Text
  import opened State

  /** The index of the first player in roster order that `matches` accepts. */
  function FirstMatch(players: seq<Connection>, matches: Connection -> bool): (r: Option<nat>)
    ensures r.Some? ==> r.value < |players| && matches(players[r.value])
    ensures r.Some? ==> forall j :: 0 <= j < r.value ==> !matches(players[j])
    ensures r.None? ==> forall j :: 0 <= j < |players| ==> !matches(players[j])
  {
    if |players| == 0 then None
    else if matches(players[0]) then Some(0)
    else
      match FirstMatch(players[1..], matches)
      case None => None
      case Some(i) => Some(i + 1)
  }

  /** A token of the form `#n` addresses a player by numeric id. */
  predicate IsIdToken(token: string) {
    |token| > 0 && token[0] == '#'
  }

  /** The substring test of the fallback scan: the lowered token occurs in the lowered name. */
  predicate NameMatches(q: Connection, token: string) {
    Occurs(Lower(token), Lower(q.name))
  }

  /**
   * `get_player`: `#n` looks up id `n`; any other token is first an exact name
   * key and then the first player in roster order whose name contains the
   * token, ignoring case. `None` is the `InvalidPlayer` the source raises for
   * a bad number, a missing key or no match.
   */
  function GetPlayer(players: seq<Connection>, token: string): (r: Option<Connection>)
    ensures r.Some? ==> r.value in players
    ensures IsIdToken(token) ==>
      (r.Some? <==> ParseInt(token[1..]).Some? &&
                    exists q :: q in players && q.playerId == ParseInt(token[1..]).value)
    ensures IsIdToken(token) && r.Some? ==> r.value.playerId == ParseInt(token[1..]).value
    ensures !IsIdToken(token) && (exists q :: q in players && q.name == token) ==>
      r.Some? && r.value.name == token
    ensures !IsIdToken(token) && (forall q :: q in players ==> q.name != token) ==>
      (r.Some? <==> exists q :: q in players && NameMatches(q, token))
    ensures !IsIdToken(token) && (forall q :: q in players ==> q.name != token) && r.Some? ==>
      exists i :: 0 <= i < |players| && players[i] == r.value && NameMatches(r.value, token) &&
                  forall j :: 0 <= j < i ==> !NameMatches(players[j], token)
  {
    if IsIdToken(token) then
      match ParseInt(token[1..])
      case None => None
      case Some(id) =>
        match FirstMatch(players, (q: Connection) => q.playerId == id)
        case None => None
        case Some(i) => Some(players[i])
    else
      match FirstMatch(players, (q: Connection) => q.name == token)
      case Some(i) => Some(players[i])
      case None =>
        match FirstMatch(players, (q: Connection) => NameMatches(q, token))
        case None => None
        case Some(i) => Some(players[i])
  }

  /** `get_team`: exactly `blue` or `green`, ignoring case; `None` is `InvalidTeam`. */
  function GetTeam(token: string): (r: Option<Color>)
    ensures r == Some(Blue) <==> Lower(token) == "blue"
    ensures r == Some(Green) <==> Lower(token) == "green"
    ensures r.None? <==> Lower(token) != "blue" && Lower(token) != "green"
  {
    var lowered := Lower(token);
    if lowered == "blue" then Some(Blue)
    else if lowered == "green" then Some(Green)
    else None
  }

  /** `join_arguments`: `default` when there are no arguments, otherwise them joined by spaces. */
  function JoinArguments(args: seq<string>, default: Option<string>): (r: Option<string>)
    ensures |args| == 0 ==> r == default
    ensures |args| > 0 ==> r == Some(Join(" ", args))
    ensures |args| > 0 ==> r.Some? && StartsWith(r.value, args[0])
    ensures |args| == 1 ==> r == Some(args[0])
  {
    if |args| == 0 then default else Some(Join(" ", args))
  }
}
