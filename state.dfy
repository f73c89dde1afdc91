/**
 * The objects the command handlers read and update: the server ("protocol")
 * with its process-wide flags and tunables, the two teams, and the player
 * connections. Outbound calls to collaborators that are not modelled (chat,
 * IRC relay, kick, ban, external game features) are appended to an event log.
 */
module State {
  import opened Wrappers

  /** The two teams; a connection's `team` names one of them. */
  datatype Color = Blue | Green

  /** `team.other`. */
  function Other(c: Color): (r: Color)
    ensures r != c
  {
    if c == Blue then Green else Blue
  }

  /** Calls into game features this engine only triggers (their results are not modelled). */
  datatype Call =
    | StartVotekick(caller: Connection, target: Connection)
    | Votekick(caller: Connection, inFavour: bool)
    | CancelVotekick(caller: Connection)
    | StartAirstrike(caller: Connection, value: Option<string>)
    | Goto(caller: Connection, location: string)
    | ResetGame
    | StartRollback(caller: Connection, filename: Option<string>, area: Option<string>)
    | CancelRollback(caller: Connection)

  /** One outbound effect, in the order the handler performed it. */
  datatype Event =
    | Chat(text: string, irc: bool)                  // protocol.send_chat(text, irc = ...)
    | IrcSay(text: string)                           // protocol.irc_say(text)
    | PrivateChat(to: Connection, text: string)      // player.send_chat(text)
    | SendLines(to: Connection, lines: seq<string>)  // connection.send_lines(lines)
    | Kicked(who: Connection, reason: Option<string>)
    | Banned(who: Connection, reason: Option<string>)
    | Killed(who: Connection)
    | Refilled(who: Connection)
    | Relocated(who: Connection, to: Connection)     // who.set_location(to.get_location())
    | DroppedFollowers(who: Connection)
    | Delegated(call: Call)

  /**
   * What a handler returns: nothing (`None` in the source, no reply is sent),
   * a line of text, or whatever an external feature returned.
   */
  datatype Reply = Silent | Text(text: string) | Forwarded(call: Call)

  /** The exception kinds a handler call can raise; all four are caught by `handle_command`. */
  datatype Failure = TypeError | InvalidPlayer | InvalidTeam | ValueError

  /** A handler call either returns a reply or raises. */
  datatype Outcome = Returned(reply: Reply) | Raised(failure: Failure)

  /** The values `tweak` reads and writes, as one record. */
  datatype Tunables = Tuning(
    rows: int, packets: int, uniques: int, time: real,
    airstrikes: bool, minScore: int, streak: int)

  class Team {
    const color: Color
    const name: string
    var locked: bool

    constructor (color: Color, name: string)
      ensures this.color == color && this.name == name && !locked
    {
      this.color := color;
      this.name := name;
      locked := false;
    }
  }

  class Protocol {
    /** The live roster, in the order `players.values()` yields it. */
    var players: seq<Connection>
    const blueTeam: Team
    const greenTeam: Team

    var building: bool
    var killing: bool
    var friendlyFire: bool
    var balancedTeams: int

    var rollbackMaxRows: int
    var rollbackMaxPackets: int
    var rollbackMaxUniquePackets: int
    var rollbackTimeBetweenCycles: real
    var airstrikes: bool
    var airstrikeMinScoreReq: int
    var airstrikeStreakReq: int

    const adminPasswords: seq<string>
    /** The configured number of login attempts. */
    const loginRetries: int
    const maxFollowers: int
    const respawnTime: int
    const followRespawnTime: int
    /** Configured help and rules text, `None` when not configured. */
    const help: Option<seq<string>>
    const rules: Option<seq<string>>
    /** Python's `float(s)` and `'%s' % x` for floats, which this model does not define. */
    const parseFloat: string -> Option<real>
    const floatText: real -> string

    var events: seq<Event>

    ghost predicate Valid() {
      blueTeam.color == Blue && greenTeam.color == Green && blueTeam != greenTeam
    }

    function TeamOf(c: Color): (t: Team)
      requires Valid()
      ensures t.color == c
    {
      if c == Blue then blueTeam else greenTeam
    }

    function Tunables(): Tunables
      reads this
    {
      Tuning(rollbackMaxRows, rollbackMaxPackets, rollbackMaxUniquePackets,
               rollbackTimeBetweenCycles, airstrikes, airstrikeMinScoreReq, airstrikeStreakReq)
    }

    constructor (adminPasswords: seq<string>, loginRetries: int, maxFollowers: int,
                 respawnTime: int, followRespawnTime: int,
                 parseFloat: string -> Option<real>, floatText: real -> string)
      ensures Valid() && fresh(blueTeam) && fresh(greenTeam)
      ensures players == [] && events == [] && help.None? && rules.None?
      ensures this.adminPasswords == adminPasswords && this.loginRetries == loginRetries
      ensures this.maxFollowers == maxFollowers && this.respawnTime == respawnTime
      ensures this.followRespawnTime == followRespawnTime
      ensures building && killing && !friendlyFire
    {
      players := [];
      blueTeam := new Team(Blue, "Blue");
      greenTeam := new Team(Green, "Green");
      building, killing, friendlyFire, balancedTeams := true, true, false, 1;
      rollbackMaxRows, rollbackMaxPackets, rollbackMaxUniquePackets := 0, 0, 0;
      rollbackTimeBetweenCycles := 0.0;
      airstrikes, airstrikeMinScoreReq, airstrikeStreakReq := false, 0, 0;
      this.adminPasswords := adminPasswords;
      this.loginRetries := loginRetries;
      this.maxFollowers := maxFollowers;
      this.respawnTime := respawnTime;
      this.followRespawnTime := followRespawnTime;
      help, rules := None, None;
      this.parseFloat := parseFloat;
      this.floatText := floatText;
      events := [];
    }
  }

  class Connection {
    const protocol: Protocol
    const playerId: int
    const name: string
    var admin: bool
    /** `None` until the first failed login. */
    var loginRetries: Option<int>
    var team: Color
    var follow: Connection?
    var followable: bool
    var respawnTime: int
    var mute: bool
    var god: bool
    var streak: int
    var bestStreak: int

    constructor (protocol: Protocol, playerId: int, name: string, team: Color)
      ensures this.protocol == protocol && this.playerId == playerId && this.name == name
      ensures this.team == team && !admin && loginRetries.None? && follow == null && followable
      ensures !mute && !god
    {
      this.protocol := protocol;
      this.playerId := playerId;
      this.name := name;
      this.team := team;
      admin := false;
      loginRetries := None;
      follow := null;
      followable := true;
      respawnTime := protocol.respawnTime;
      mute, god := false, false;
      streak, bestStreak := 0, 0;
    }
  }

  /** The groups of fields a command handler may write, besides appending to the event log. */
  datatype Field = Nothing | Rights | Following | Followable | Mutes | Gods | Teams | Flags | Balance | Tunings | Locks

  /** The fields of a player's own session, which a handler writes only for its caller. */
  twostate predicate SessionKept(q: Connection)
    reads q
  {
    (q.admin, q.loginRetries, q.follow, q.respawnTime, q.followable, q.streak, q.bestStreak)
    == old((q.admin, q.loginRetries, q.follow, q.respawnTime, q.followable, q.streak, q.bestStreak))
  }

  /** A player's mute, god and team fields, each kept unless it is the group `writes`. */
  twostate predicate PlayerKept(q: Connection, writes: Field)
    reads q
  {
    && (writes != Mutes ==> q.mute == old(q.mute))
    && (writes != Gods ==> q.god == old(q.god))
    && (writes != Teams ==> q.team == old(q.team))
  }

  /** The server's flags, team balance, tunables and team locks, each kept unless it is the group `writes`. */
  twostate predicate ServerKept(p: Protocol, writes: Field)
    reads p, p.blueTeam, p.greenTeam
  {
    && (writes != Flags ==> (p.building, p.killing, p.friendlyFire) == old((p.building, p.killing, p.friendlyFire)))
    && (writes != Balance ==> p.balancedTeams == old(p.balancedTeams))
    && (writes != Tunings ==>
          (p.rollbackMaxRows, p.rollbackMaxPackets, p.rollbackMaxUniquePackets, p.rollbackTimeBetweenCycles,
           p.airstrikes, p.airstrikeMinScoreReq, p.airstrikeStreakReq)
          == old((p.rollbackMaxRows, p.rollbackMaxPackets, p.rollbackMaxUniquePackets, p.rollbackTimeBetweenCycles,
                  p.airstrikes, p.airstrikeMinScoreReq, p.airstrikeStreakReq)))
    && (writes != Locks ==> (p.blueTeam.locked, p.greenTeam.locked) == old((p.blueTeam.locked, p.greenTeam.locked)))
  }

  /**
   * Every field of the caller `c`, of the roster players and of the server
   * outside the group `writes` keeps its value (`Nothing` names no group):
   * `Rights` is the caller's admin flag and login counter, `Following` whom
   * it follows and its respawn time, `Followable` whether it may be
   * followed; `Mutes`, `Gods` and `Teams` are those fields of the caller and
   * of every roster player; `Flags`, `Balance`, `Tunings` and `Locks` are
   * the server's three flags, its team balance, its tunables and the two
   * teams' locks. Other players' session fields are never written.
   */
  twostate predicate Untouched(c: Connection, writes: Field)
    requires c.protocol.players == old(c.protocol.players)
    reads c, c.protocol, c.protocol.players, c.protocol.blueTeam, c.protocol.greenTeam
  {
    && (writes != Rights ==> (c.admin, c.loginRetries) == old((c.admin, c.loginRetries)))
    && (writes != Following ==> (c.follow, c.respawnTime) == old((c.follow, c.respawnTime)))
    && (writes != Followable ==> c.followable == old(c.followable))
    && (c.streak, c.bestStreak) == old((c.streak, c.bestStreak))
    && PlayerKept(c, writes)
    && (forall q :: q in c.protocol.players ==> PlayerKept(q, writes) && (q != c ==> SessionKept(q)))
    && ServerKept(c.protocol, writes)
  }

  /** The followers of `target`: the roster connections that follow it. */
  function Followers(p: Protocol, target: Connection): set<Connection>
    reads p, p.players
  {
    set q | q in p.players && q.follow == target
  }
}
