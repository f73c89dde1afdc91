/**
 * The handlers any player may use that change or report the caller's own
 * session: `login`, `follow`, `nofollow`, `help`, `rules`, `pm` and `streak`.
 */
module Session {
  import opened Wrappers
  import opened Text
  import opened State
  import opened Resolve
  import opened Registry

  // ---------------------------------------------------------------- login

  const OutOfAttempts := "Ran out of login attempts"

  /**
   * The login counter after one wrong password: the first failure seeds it
   * from the configured number of attempts minus one, later ones decrement it.
   */
  function RetriesAfterFailure(retries: Option<int>, configured: int): int {
    match retries
    case None => configured - 1
    case Some(n) => n - 1
  }

  /** The counter after `k` consecutive wrong passwords on a fresh connection. */
  function RetriesAfter(k: nat, configured: int): Option<int> {
    if k == 0 then None else Some(RetriesAfterFailure(RetriesAfter(k - 1, configured), configured))
  }

  /** After `k >= 1` consecutive failures the counter reads `configured - k`. */
  lemma {:induction false} RetriesCountDown(k: nat, configured: int)
    requires k >= 1
    ensures RetriesAfter(k, configured) == Some(configured - k)
  {
    if k > 1 {
      RetriesCountDown(k - 1, configured);
    }
  }

  /**
   * The kick comes exactly on the `configured`-th consecutive wrong password:
   * no earlier attempt reaches 0, and with a configured number of at most 0 no
   * attempt ever does (the counter goes negative instead).
   */
  lemma KickedOnLastAttempt(k: nat, configured: int)
    requires k >= 1
    ensures RetriesAfter(k, configured).Some?
    ensures RetriesAfter(k, configured).value == 0 <==> k == configured
  {
    RetriesCountDown(k, configured);
  }

  /**
   * `login`: a listed password grants admin rights and leaves the counter
   * alone; a wrong one advances the counter and kicks the caller when it
   * reaches 0, otherwise reports the attempts left.
   */
  method Login(c: Connection, password: string) returns (o: Outcome)
    modifies c`admin, c`loginRetries, c.protocol`events
    ensures password in c.protocol.adminPasswords ==>
      && c.admin && c.loginRetries == old(c.loginRetries)
      && c.protocol.events == old(c.protocol.events) + [Chat(c.name + " logged in as admin", true)]
      && o == Returned(Silent)
    ensures password !in c.protocol.adminPasswords ==>
      && c.admin == old(c.admin)
      && c.loginRetries == Some(RetriesAfterFailure(old(c.loginRetries), c.protocol.loginRetries))
    ensures password !in c.protocol.adminPasswords && c.loginRetries == Some(0) ==>
      && c.protocol.events == old(c.protocol.events) + [Kicked(c, Some(OutOfAttempts))]
      && o == Returned(Silent)
    ensures password !in c.protocol.adminPasswords && c.loginRetries != Some(0) ==>
      && c.protocol.events == old(c.protocol.events)
      && o == Returned(Text("Invalid password - you have " + IntText(c.loginRetries.value) + " tries left"))
    ensures Untouched(c, Rights)
  {
    var p := c.protocol;
    if password in p.adminPasswords {
      c.admin := true;
      p.events := p.events + [Chat(c.name + " logged in as admin", true)];
      return Returned(Silent);
    }
    var left := RetriesAfterFailure(c.loginRetries, p.loginRetries);
    c.loginRetries := Some(left);
    if left == 0 {
      p.events := p.events + [Kicked(c, Some(OutOfAttempts))];
      return Returned(Silent);
    }
    o := Returned(Text("Invalid password - you have " + IntText(left) + " tries left"));
  }

  // ---------------------------------------------------------------- follow

  const NotFollowingAnybody := "You aren't following anybody. To follow a player say /follow <nickname>"

  /**
   * The guards of `follow`, tried in order, as the reply of the first one
   * that refuses; `None` when all pass.
   */
  function FollowRefusal(c: Connection, target: Connection, followers: int, maxFollowers: int): (r: Option<string>)
    reads c, target
    ensures r.None? <==>
      c != target && c.team == target.team && c.follow != target && target.followable &&
      followers < maxFollowers
    ensures c == target ==> r == Some("You can't follow yourself!")
  {
    if c == target then Some("You can't follow yourself!")
    else if c.team != target.team then Some(target.name + " is not on your team.")
    else if c.follow == target then Some("You're already following " + target.name)
    else if !target.followable then Some(target.name + " doesn't want to be followed.")
    else if followers >= maxFollowers then Some(target.name + " has too many followers!")
    else None
  }

  /**
   * `follow`: without an argument it cancels the caller's follow relation
   * (if any); with one it resolves the player and, when every guard passes,
   * sets the relation and the follow respawn time. A refusal changes nothing.
   */
  method Follow(c: Connection, player: Option<string>) returns (o: Outcome)
    modifies c`follow, c`respawnTime, c.protocol`events
    ensures player.None? && old(c.follow) == null ==>
      o == Returned(Text(NotFollowingAnybody)) && unchanged(c) && unchanged(c.protocol)
    ensures player.None? && old(c.follow) != null ==>
      && c.follow == null && c.respawnTime == c.protocol.respawnTime
      && c.protocol.events ==
           old(c.protocol.events) + [PrivateChat(old(c.follow), c.name + " is no longer following you.")]
      && o == Returned(Text("You are no longer following " + old(c.follow).name + "."))
    ensures player.Some? && GetPlayer(c.protocol.players, player.value).None? ==>
      o == Raised(InvalidPlayer) && unchanged(c) && unchanged(c.protocol)
    ensures player.Some? && GetPlayer(c.protocol.players, player.value).Some? ==>
      var target := GetPlayer(c.protocol.players, player.value).value;
      var refusal := old(FollowRefusal(c, target, |Followers(c.protocol, target)|, c.protocol.maxFollowers));
      && (refusal.Some? ==> o == Returned(Text(refusal.value)) && unchanged(c) && unchanged(c.protocol))
      && (refusal.None? ==>
            && c.follow == target && c.respawnTime == c.protocol.followRespawnTime
            && c.protocol.events == old(c.protocol.events) + [PrivateChat(target, c.name + " is now following you.")]
            && o == Returned(Text("Next time you die you will spawn where " + target.name + " is. To stop, type /follow")))
    ensures Untouched(c, Following)
  {
    var p := c.protocol;
    if player.None? {
      if c.follow == null {
        return Returned(Text(NotFollowingAnybody));
      }
      var previous := c.follow;
      c.follow := null;
      c.respawnTime := p.respawnTime;
      p.events := p.events + [PrivateChat(previous, c.name + " is no longer following you.")];
      return Returned(Text("You are no longer following " + previous.name + "."));
    }
    var found := GetPlayer(p.players, player.value);
    if found.None? {
      return Raised(InvalidPlayer);
    }
    var target := found.value;
    var refusal := FollowRefusal(c, target, |Followers(p, target)|, p.maxFollowers);
    if refusal.Some? {
      return Returned(Text(refusal.value));
    }
    c.follow := target;
    c.respawnTime := p.followRespawnTime;
    p.events := p.events + [PrivateChat(target, c.name + " is now following you.")];
    o := Returned(Text("Next time you die you will spawn where " + target.name + " is. To stop, type /follow"));
  }

  /**
   * `nofollow`: negates the caller's followable flag and drops its followers
   * exactly when the flag becomes false.
   */
  method NoFollow(c: Connection) returns (o: Outcome)
    modifies c`followable, c.protocol`events
    ensures c.followable == !old(c.followable)
    ensures c.protocol.events == old(c.protocol.events) + (if c.followable then [] else [DroppedFollowers(c)])
    ensures o == Returned(Text("Teammates will " + (if c.followable then "now" else "no longer")
                               + " be able to follow you."))
    ensures Untouched(c, Followable)
  {
    c.followable := !c.followable;
    if !c.followable {
      c.protocol.events := c.protocol.events + [DroppedFollowers(c)];
    }
    o := Returned(Text("Teammates will " + (if c.followable then "now" else "no longer")
                       + " be able to follow you."));
  }

  /** `nofollow` twice restores the flag; the followers are dropped on exactly one of the two calls. */
  method NoFollowTwice(c: Connection)
    modifies c`followable, c.protocol`events
    ensures c.followable == old(c.followable)
    ensures c.protocol.events == old(c.protocol.events) + [DroppedFollowers(c)]
  {
    var first := NoFollow(c);
    var second := NoFollow(c);
  }

  // ---------------------------------------------------------------- other replies

  /**
   * `help`: sends the configured help lines if there are any; otherwise
   * replies with the names in `list`, the module's `command_list`
   * (`Registry.CommandList()`), that the caller may use.
   */
  method Help(c: Connection, list: seq<Command>) returns (o: Outcome)
    modifies c.protocol`events
    ensures c.protocol.help.Some? ==>
      c.protocol.events == old(c.protocol.events) + [SendLines(c, c.protocol.help.value)] && o == Returned(Silent)
    ensures c.protocol.help.None? ==>
      && c.protocol.events == old(c.protocol.events)
      && o == Returned(Text("Available commands: " + Join(", ", VisibleNames(list, c.admin))))
    ensures Untouched(c, Nothing)
  {
    var p := c.protocol;
    if p.help.Some? {
      p.events := p.events + [SendLines(c, p.help.value)];
      return Returned(Silent);
    }
    o := Returned(Text("Available commands: " + Join(", ", VisibleNames(list, c.admin))));
  }

  /** `rules`: sends the configured rules lines, if any; never replies. */
  method Rules(c: Connection) returns (o: Outcome)
    modifies c.protocol`events
    ensures c.protocol.events ==
      old(c.protocol.events) + (if c.protocol.rules.Some? then [SendLines(c, c.protocol.rules.value)] else [])
    ensures o == Returned(Silent)
    ensures Untouched(c, Nothing)
  {
    var p := c.protocol;
    if p.rules.Some? {
      p.events := p.events + [SendLines(c, p.rules.value)];
    }
    o := Returned(Silent);
  }

  /** `'%s' % x` for the optional message of `pm`: `None` prints as `None`. */
  function OptionalText(s: Option<string>): string {
    if s.Some? then s.value else "None"
  }

  /** `pm`: resolves the recipient, sends it the joined message and confirms to the caller. */
  method Pm(c: Connection, value: string, rest: seq<string>) returns (o: Outcome)
    modifies c.protocol`events
    ensures GetPlayer(c.protocol.players, value).None? ==>
      o == Raised(InvalidPlayer) && unchanged(c.protocol)
    ensures GetPlayer(c.protocol.players, value).Some? ==>
      var target := GetPlayer(c.protocol.players, value).value;
      && c.protocol.events == old(c.protocol.events) +
           [PrivateChat(target, "PM from " + c.name + ": " + OptionalText(JoinArguments(rest, None)))]
      && o == Returned(Text("PM sent to " + target.name))
    ensures Untouched(c, Nothing)
  {
    var p := c.protocol;
    var found := GetPlayer(p.players, value);
    if found.None? {
      return Raised(InvalidPlayer);
    }
    var message := JoinArguments(rest, None);
    p.events := p.events + [PrivateChat(found.value, "PM from " + c.name + ": " + OptionalText(message))];
    o := Returned(Text("PM sent to " + found.value.name));
  }

  /** `streak`: reports the caller's current and best kill streak. */
  method Streak(c: Connection) returns (o: Outcome)
    ensures o == Returned(Text("Your current kill streak is " + IntText(c.streak) + ". Best is "
                               + IntText(c.bestStreak) + " kills."))
    ensures Untouched(c, Nothing)
  {
    o := Returned(Text("Your current kill streak is " + IntText(c.streak) + ". Best is "
                       + IntText(c.bestStreak) + " kills."));
  }
}
