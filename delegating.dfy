/**
 * The handlers whose work is done by collaborators outside this engine:
 * `kick`, `ban`, `say`, `kill`, `heal`, `teleport`, `goto`, `reset_game`, the
 * votekick commands (`votekick`, `y`, `n`, `cancel`), `airstrike` and the
 * rollback commands. Each resolves its references first and then records the
 * outbound calls and announcements in order.
 */
module Delegating {
  import opened Wrappers
  import opened Text
  import opened State
  import opened Resolve
  import Registry

  /** `kick` (with `ban` false) and `ban` (true): the reason is the joined rest, or `None`. */
  method Remove(c: Connection, value: string, rest: seq<string>, ban: bool) returns (o: Outcome)
    modifies c.protocol`events
    ensures GetPlayer(c.protocol.players, value).None? ==>
      o == Raised(InvalidPlayer) && unchanged(c.protocol)
    ensures GetPlayer(c.protocol.players, value).Some? ==>
      var target := GetPlayer(c.protocol.players, value).value;
      var reason := JoinArguments(rest, None);
      && c.protocol.events == old(c.protocol.events) +
           [if ban then Banned(target, reason) else Kicked(target, reason)]
      && o == Returned(Silent)
    ensures Untouched(c, Nothing)
  {
    var p := c.protocol;
    var reason := JoinArguments(rest, None);
    var found := GetPlayer(p.players, value);
    if found.None? {
      return Raised(InvalidPlayer);
    }
    p.events := p.events + [if ban then Banned(found.value, reason) else Kicked(found.value, reason)];
    o := Returned(Silent);
  }

  /** `say`: the words joined by spaces go to the server chat and to IRC. */
  method Say(c: Connection, words: seq<string>) returns (o: Outcome)
    modifies c.protocol`events
    ensures c.protocol.events == old(c.protocol.events) + [Chat(Join(" ", words), false), IrcSay(Join(" ", words))]
    ensures o == Returned(Silent)
    ensures Untouched(c, Nothing)
  {
    var text := Join(" ", words);
    c.protocol.events := c.protocol.events + [Chat(text, false), IrcSay(text)];
    o := Returned(Silent);
  }

  /** `kill`: kills the named player and announces who did it. */
  method Kill(c: Connection, value: string) returns (o: Outcome)
    modifies c.protocol`events
    ensures GetPlayer(c.protocol.players, value).None? ==>
      o == Raised(InvalidPlayer) && unchanged(c.protocol)
    ensures GetPlayer(c.protocol.players, value).Some? ==>
      var target := GetPlayer(c.protocol.players, value).value;
      && c.protocol.events == old(c.protocol.events) +
           [Killed(target), Chat(c.name + " killed " + target.name, true)]
      && o == Returned(Silent)
    ensures Untouched(c, Nothing)
  {
    var p := c.protocol;
    var found := GetPlayer(p.players, value);
    if found.None? {
      return Raised(InvalidPlayer);
    }
    p.events := p.events + [Killed(found.value), Chat(c.name + " killed " + found.value.name, true)];
    o := Returned(Silent);
  }

  /** `heal`: refills the named player, or the caller when no name is given, and announces it. */
  method Heal(c: Connection, player: Option<string>) returns (o: Outcome)
    modifies c.protocol`events
    ensures player.Some? && GetPlayer(c.protocol.players, player.value).None? ==>
      o == Raised(InvalidPlayer) && unchanged(c.protocol)
    ensures player.Some? && GetPlayer(c.protocol.players, player.value).Some? ==>
      var target := GetPlayer(c.protocol.players, player.value).value;
      && c.protocol.events == old(c.protocol.events) +
           [Refilled(target), Chat(target.name + " was healed by " + c.name, true)]
      && o == Returned(Silent)
    ensures player.None? ==>
      && c.protocol.events == old(c.protocol.events) + [Refilled(c), Chat(c.name + " was healed", true)]
      && o == Returned(Silent)
    ensures Untouched(c, Nothing)
  {
    var p := c.protocol;
    var target := c;
    var message := c.name + " was healed";
    if player.Some? {
      var found := GetPlayer(p.players, player.value);
      if found.None? {
        return Raised(InvalidPlayer);
      }
      target := found.value;
      message := target.name + " was healed by " + c.name;
    }
    p.events := p.events + [Refilled(target), Chat(message, true)];
    o := Returned(Silent);
  }

  /**
   * `teleport`: with one name the caller moves to that player; with two the
   * first moves to the second. Both names are resolved before anything moves.
   */
  method Teleport(c: Connection, first: string, second: Option<string>) returns (o: Outcome)
    modifies c.protocol`events
    ensures GetPlayer(c.protocol.players, first).None? ||
            (second.Some? && GetPlayer(c.protocol.players, second.value).None?) ==>
      o == Raised(InvalidPlayer) && unchanged(c.protocol)
    ensures GetPlayer(c.protocol.players, first).Some? && second.None? ==>
      var target := GetPlayer(c.protocol.players, first).value;
      && c.protocol.events == old(c.protocol.events) +
           [Relocated(c, target), Chat(c.name + " teleported to " + target.name, true)]
      && o == Returned(Silent)
    ensures GetPlayer(c.protocol.players, first).Some? && second.Some? &&
            GetPlayer(c.protocol.players, second.value).Some? ==>
      var mover := GetPlayer(c.protocol.players, first).value;
      var target := GetPlayer(c.protocol.players, second.value).value;
      && c.protocol.events == old(c.protocol.events) +
           [Relocated(mover, target), Chat(c.name + " teleported " + mover.name + " to " + target.name, true)]
      && o == Returned(Silent)
    ensures Untouched(c, Nothing)
  {
    var p := c.protocol;
    var found := GetPlayer(p.players, first);
    if found.None? {
      return Raised(InvalidPlayer);
    }
    var mover, target, message;
    if second.Some? {
      var other := GetPlayer(p.players, second.value);
      if other.None? {
        return Raised(InvalidPlayer);
      }
      mover, target := found.value, other.value;
      message := c.name + " teleported " + mover.name + " to " + target.name;
    } else {
      mover, target := c, found.value;
      message := c.name + " teleported to " + target.name;
    }
    p.events := p.events + [Relocated(mover, target), Chat(message, true)];
    o := Returned(Silent);
  }

  /** `goto`: the move to a map coordinate is external; the announcement upper-cases the coordinate. */
  method Goto(c: Connection, location: string) returns (o: Outcome)
    modifies c.protocol`events
    ensures c.protocol.events == old(c.protocol.events) +
      [Delegated(Call.Goto(c, location)), Chat(c.name + " teleported to location " + Upper(location), true)]
    ensures o == Returned(Silent)
    ensures Untouched(c, Nothing)
  {
    c.protocol.events := c.protocol.events +
      [Delegated(Call.Goto(c, location)), Chat(c.name + " teleported to location " + Upper(location), true)];
    o := Returned(Silent);
  }

  /** `reset_game`: resets the game and announces who did it. */
  method ResetGame(c: Connection) returns (o: Outcome)
    modifies c.protocol`events
    ensures c.protocol.events == old(c.protocol.events) +
      [Delegated(Call.ResetGame), Chat("Game has been reset by " + c.name, true)]
    ensures o == Returned(Silent)
    ensures Untouched(c, Nothing)
  {
    c.protocol.events := c.protocol.events +
      [Delegated(Call.ResetGame), Chat("Game has been reset by " + c.name, true)];
    o := Returned(Silent);
  }

  /**
   * The handlers that only start or stop an external feature: the call is
   * recorded and, where the source returns the feature's result, the reply
   * is that result.
   */
  method Trigger(c: Connection, call: Call, forward: bool) returns (o: Outcome)
    modifies c.protocol`events
    ensures c.protocol.events == old(c.protocol.events) + [Delegated(call)]
    ensures o == Returned(if forward then Forwarded(call) else Silent)
    ensures Untouched(c, Nothing)
  {
    c.protocol.events := c.protocol.events + [Delegated(call)];
    o := Returned(if forward then Forwarded(call) else Silent);
  }

  /** `votekick`: resolves the target, then starts the vote and replies with its result. */
  method Votekick(c: Connection, value: string) returns (o: Outcome)
    modifies c.protocol`events
    ensures GetPlayer(c.protocol.players, value).None? ==>
      o == Raised(InvalidPlayer) && unchanged(c.protocol)
    ensures GetPlayer(c.protocol.players, value).Some? ==>
      var call := StartVotekick(c, GetPlayer(c.protocol.players, value).value);
      c.protocol.events == old(c.protocol.events) + [Delegated(call)] && o == Returned(Forwarded(call))
    ensures Untouched(c, Nothing)
  {
    var found := GetPlayer(c.protocol.players, value);
    if found.None? {
      return Raised(InvalidPlayer);
    }
    o := Trigger(c, StartVotekick(c, found.value), true);
  }

  /** `y` (`inFavour` true) and `n` (false): casts a vote; the handler returns nothing. */
  method Vote(c: Connection, inFavour: bool) returns (o: Outcome)
    modifies c.protocol`events
    ensures c.protocol.events == old(c.protocol.events) + [Delegated(Call.Votekick(c, inFavour))]
    ensures o == Returned(Silent)
    ensures Untouched(c, Nothing)
  {
    o := Trigger(c, Call.Votekick(c, inFavour), false);
  }

  /** `cancel`: cancels the caller's vote and replies with the feature's result. */
  method CancelVote(c: Connection) returns (o: Outcome)
    modifies c.protocol`events
    ensures c.protocol.events == old(c.protocol.events) + [Delegated(CancelVotekick(c))]
    ensures o == Returned(Forwarded(CancelVotekick(c)))
    ensures Untouched(c, Nothing)
  {
    o := Trigger(c, CancelVotekick(c), true);
  }

  /** `airstrike`: starts an airstrike with the optional argument and replies with its result. */
  method Airstrike(c: Connection, value: Option<string>) returns (o: Outcome)
    modifies c.protocol`events
    ensures c.protocol.events == old(c.protocol.events) + [Delegated(StartAirstrike(c, value))]
    ensures o == Returned(Forwarded(StartAirstrike(c, value)))
    ensures Untouched(c, Nothing)
  {
    o := Trigger(c, StartAirstrike(c, value), true);
  }

  /**
   * `rollmap`: starts a rollback from `filename` over the whole map, or over
   * the block at the coordinate `area` names; replies with the feature's result.
   */
  method Rollmap(c: Connection, filename: Option<string>, area: Option<string>) returns (o: Outcome)
    modifies c.protocol`events
    ensures c.protocol.events == old(c.protocol.events) + [Delegated(StartRollback(c, filename, area))]
    ensures o == Returned(Forwarded(StartRollback(c, filename, area)))
    ensures Untouched(c, Nothing)
  {
    o := Trigger(c, StartRollback(c, filename, area), true);
  }

  /**
   * `rollback`: calls `rollmap` without a file name. That call goes through
   * `rollmap`'s own `admin` wrapper, which checks the caller's rights again
   * and drops `rollmap`'s result, so this handler returns nothing.
   */
  method Rollback(c: Connection, area: Option<string>) returns (o: Outcome)
    modifies c.protocol`events
    ensures !c.admin ==> o == Returned(Text(Registry.Denied)) && unchanged(c.protocol)
    ensures c.admin ==>
      && c.protocol.events == old(c.protocol.events) + [Delegated(StartRollback(c, None, area))]
      && o == Returned(Silent)
    ensures Untouched(c, Nothing)
  {
    if !c.admin {
      return Returned(Text(Registry.Denied));
    }
    var dropped := Rollmap(c, None, area);
    o := Returned(Silent);
  }

  /** `rollbackcancel`: cancels the caller's rollback and replies with the feature's result. */
  method RollbackCancel(c: Connection) returns (o: Outcome)
    modifies c.protocol`events
    ensures c.protocol.events == old(c.protocol.events) + [Delegated(CancelRollback(c))]
    ensures o == Returned(Forwarded(CancelRollback(c)))
    ensures Untouched(c, Nothing)
  {
    o := Trigger(c, CancelRollback(c), true);
  }
}
