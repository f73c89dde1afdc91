/**
 * `handle_command`: the case-insensitive lookup, the `admin` gate, the
 * binding of the chat parameters to the handler's signature, the run of the
 * handler and the translation of the exceptions it raises into replies.
 */
module Dispatch {
  import opened Wrappers
  import opened Text
  import opened State
  import opened Registry
  import opened Resolve
  import Session
  import AdminHandlers
  import Delegating

  const InvalidCommand := "Invalid command"

  /** The reply `handle_command` sends for each exception it catches from a handler call. */
  function FailureText(command: string, f: Failure): string {
    match f
    case TypeError => "Invalid number of arguments for " + command
    case InvalidPlayer => "No such player"
    case InvalidTeam => "Invalid team specifier"
    case ValueError => "Invalid parameters"
  }

  /** Different exceptions give different replies, whatever the command name. */
  lemma FailureTextIdentifies(command: string, other: string, f: Failure, g: Failure)
    requires FailureText(command, f) == FailureText(other, g)
    ensures f == g
  {
  }

  /** The reply for a handler outcome: what it returned, or the text for what it raised. */
  function Settle(command: string, o: Outcome): (r: Reply)
    ensures o.Raised? ==> r.Text? && r.text != InvalidCommand && r.text != Denied
    ensures o.Returned? ==> r == o.reply
  {
    match o
    case Returned(reply) => reply
    case Raised(f) => Text(FailureText(command, f))
  }

  /**
   * The reply for a command entry whose handler ran: a gated handler runs
   * inside the `admin` wrapper, which calls it without `return`, so only its
   * exceptions get through and whatever it returned becomes `None`.
   */
  function Respond(command: string, entry: Command, o: Outcome): (r: Reply)
    ensures o.Returned? && !entry.admin ==> r == o.reply
    ensures o.Returned? && entry.admin ==> r == Silent
    ensures o.Raised? ==> r == Text(FailureText(command, o.failure))
  {
    if entry.admin && o.Returned? then Silent else Settle(command, o)
  }

  /**
   * One consequence: an administrator's `/tweak rows` makes the handler
   * return the current value, and the reply sent is nothing.
   */
  lemma TweakQueryUnanswered(t: Tunables, floatText: real -> string)
    ensures Respond("tweak", Admin(Def(Tweak, "tweak")),
                    Returned(Text(AdminHandlers.TweakGet(t, AdminHandlers.Rows, floatText)))) == Silent
  {
  }

  /** The optional positional argument `i`, `None` when the call supplies fewer. */
  function Arg(args: seq<string>, i: nat): (r: Option<string>)
    ensures r.Some? <==> i < |args|
    ensures r.Some? ==> r.value == args[i]
  {
    if i < |args| then Some(args[i]) else None
  }

  /**
   * What every handler guarantees, whichever it is: the roster stays as it
   * is, the event log is only appended to, an exception is never the arity
   * `TypeError` and leaves everything as it was, and `InvalidTeam` and
   * `ValueError` come only from the handlers that raise them.
   */
  twostate predicate Contained(h: Handler, c: Connection, new o: Outcome)
    reads c, c.protocol, c.protocol.players, c.protocol.blueTeam, c.protocol.greenTeam
  {
    && c.protocol.players == old(c.protocol.players)
    && old(c.protocol.events) <= c.protocol.events
    && (o.Raised? ==>
          && o.failure != TypeError
          && unchanged(c, c.protocol, c.protocol.blueTeam, c.protocol.greenTeam)
          && unchanged(c.protocol.players))
    && (o == Raised(InvalidTeam) ==> h.Lock? || h.Unlock?)
    && (o == Raised(ValueError) ==> h.Tweak?)
  }

  /** `kick` (`ban` false) and `ban` (true) on the parameters `value` and `rest`. */
  twostate predicate Removed(c: Connection, value: string, rest: seq<string>, ban: bool, new o: Outcome)
    reads c.protocol
  {
    var found := GetPlayer(c.protocol.players, value);
    && (found.None? ==> o == Raised(InvalidPlayer))
    && (found.Some? ==>
          var reason := JoinArguments(rest, None);
          && c.protocol.events == old(c.protocol.events) +
               [if ban then Banned(found.value, reason) else Kicked(found.value, reason)]
          && o == Returned(Silent))
  }

  /** `mute` (`muted` true) and `unmute` (false) on the parameter `value`. */
  twostate predicate MuteSet(c: Connection, value: string, muted: bool, new o: Outcome)
    requires c.protocol.players == old(c.protocol.players)
    reads c, c.protocol, c.protocol.players
  {
    var found := GetPlayer(c.protocol.players, value);
    var verb := if muted then "muted" else "unmuted";
    && (found.None? ==> o == Raised(InvalidPlayer))
    && (found.Some? ==>
          && found.value.mute == muted
          && (c != found.value ==> c.mute == old(c.mute))
          && (forall q :: q in c.protocol.players && q != found.value ==> q.mute == old(q.mute))
          && c.protocol.events == old(c.protocol.events) +
               [Chat(found.value.name + " has been " + verb + " by " + c.name, true)]
          && o == Returned(Silent))
  }

  /** `lock` (`locked` true) and `unlock` (false) on the parameter `value`. */
  twostate predicate LockSet(c: Connection, value: string, locked: bool, new o: Outcome)
    requires c.protocol.Valid()
    reads c.protocol, c.protocol.blueTeam, c.protocol.greenTeam
  {
    var color := GetTeam(value);
    && (color.None? ==> o == Raised(InvalidTeam))
    && (color.Some? ==>
          var team := c.protocol.TeamOf(color.value);
          var verb := if locked then "locked" else "unlocked";
          && team.locked == locked
          && c.protocol.TeamOf(Other(color.value)).locked == old(c.protocol.TeamOf(Other(color.value)).locked)
          && c.protocol.events == old(c.protocol.events) +
               [Chat(team.name + " team is now " + verb, false),
                IrcSay("* " + c.name + " " + verb + " " + team.name + " team")]
          && o == Returned(Silent))
  }

  /** `togglebuild`, `togglekill` and `toggleteamkill`, as the flag `s` they negate. */
  twostate predicate Toggled(c: Connection, s: AdminHandlers.Setting, new o: Outcome)
    reads c.protocol
  {
    && AdminHandlers.SettingValue(c.protocol, s) == !old(AdminHandlers.SettingValue(c.protocol, s))
    && (forall t :: t != s ==> AdminHandlers.SettingValue(c.protocol, t) == old(AdminHandlers.SettingValue(c.protocol, t)))
    && c.protocol.events == old(c.protocol.events) +
         AdminHandlers.ToggleAnnouncements(s, c.name, AdminHandlers.SettingValue(c.protocol, s))
    && o == Returned(Silent)
  }

  /** An external feature `call` was started or stopped, with `reply` as the handler's return. */
  twostate predicate Triggered(c: Connection, new call: Call, new reply: Reply, new o: Outcome)
    reads c.protocol
  {
    c.protocol.events == old(c.protocol.events) + [Delegated(call)] && o == Returned(reply)
  }

  /** `Ran` for the commands that only inform: rules, pm, streak. */
  twostate predicate InfoRan(h: Handler, c: Connection, args: seq<string>, new o: Outcome)
    requires h.Rules? || h.Pm? || h.Streak?
    requires Accepts(ArityOf(h), |args|)
    requires c.protocol.players == old(c.protocol.players)
    reads c, c.protocol, c.protocol.players, c.protocol.blueTeam, c.protocol.greenTeam
  {
    var p := c.protocol;
    && Untouched(c, Nothing)
    && match h
    case Rules =>
      && p.events == old(p.events) + (if p.rules.Some? then [SendLines(c, p.rules.value)] else [])
      && o == Returned(Silent)
    case Pm =>
      var found := GetPlayer(p.players, args[0]);
      && (found.None? ==> o == Raised(InvalidPlayer))
      && (found.Some? ==>
            && p.events == old(p.events) +
                 [PrivateChat(found.value, "PM from " + c.name + ": "
                                           + Session.OptionalText(JoinArguments(args[1..], None)))]
            && o == Returned(Text("PM sent to " + found.value.name)))
    case Streak =>
      && p.events == old(p.events)
      && o == Returned(Text("Your current kill streak is " + IntText(c.streak) + ". Best is "
                            + IntText(c.bestStreak) + " kills."))
  }

  /** `Ran` for the commands on the caller's own session: login, follow, nofollow. */
  twostate predicate AccountRan(h: Handler, c: Connection, args: seq<string>, new o: Outcome)
    requires h.Login? || h.Follow? || h.NoFollow?
    requires Accepts(ArityOf(h), |args|)
    requires c.protocol.players == old(c.protocol.players)
    reads c, c.protocol, c.protocol.players, c.protocol.blueTeam, c.protocol.greenTeam
  {
    var p := c.protocol;
    match h
    case Login =>
      && Untouched(c, Rights)
      && (args[0] in p.adminPasswords ==>
            && c.admin && c.loginRetries == old(c.loginRetries)
            && p.events == old(p.events) + [Chat(c.name + " logged in as admin", true)]
            && o == Returned(Silent))
      && (args[0] !in p.adminPasswords ==>
            && c.admin == old(c.admin)
            && c.loginRetries == Some(Session.RetriesAfterFailure(old(c.loginRetries), p.loginRetries))
            && (c.loginRetries == Some(0) ==>
                  p.events == old(p.events) + [Kicked(c, Some(Session.OutOfAttempts))] && o == Returned(Silent))
            && (c.loginRetries != Some(0) ==>
                  && p.events == old(p.events)
                  && o == Returned(Text("Invalid password - you have " + IntText(c.loginRetries.value)
                                        + " tries left"))))
    case Follow =>
      && Untouched(c, Following)
      && if |args| == 0 then
        && (old(c.follow) == null ==> o == Returned(Text(Session.NotFollowingAnybody)) && unchanged(c, p))
        && (old(c.follow) != null ==>
              && c.follow == null && c.respawnTime == p.respawnTime
              && p.events == old(p.events) + [PrivateChat(old(c.follow), c.name + " is no longer following you.")]
              && o == Returned(Text("You are no longer following " + old(c.follow).name + ".")))
      else
        var found := GetPlayer(p.players, args[0]);
        && (found.None? ==> o == Raised(InvalidPlayer))
        && (found.Some? ==>
              var target := found.value;
              var refusal := old(Session.FollowRefusal(c, target, |Followers(p, target)|, p.maxFollowers));
              && (refusal.Some? ==> o == Returned(Text(refusal.value)) && unchanged(c, p))
              && (refusal.None? ==>
                    && c.follow == target && c.respawnTime == p.followRespawnTime
                    && p.events == old(p.events) + [PrivateChat(target, c.name + " is now following you.")]
                    && o == Returned(Text("Next time you die you will spawn where " + target.name
                                          + " is. To stop, type /follow"))))
    case NoFollow =>
      && Untouched(c, Followable)
      && c.followable == !old(c.followable)
      && p.events == old(p.events) + (if c.followable then [] else [DroppedFollowers(c)])
      && o == Returned(Text("Teammates will " + (if c.followable then "now" else "no longer")
                            + " be able to follow you."))
  }

  /** `Ran` for removing and punishing players: kick, ban, kill, mute, unmute, say. */
  twostate predicate ModerationRan(h: Handler, c: Connection, args: seq<string>, new o: Outcome)
    requires h.Kick? || h.Ban? || h.Kill? || h.Mute? || h.Unmute? || h.Say?
    requires Accepts(ArityOf(h), |args|)
    requires c.protocol.players == old(c.protocol.players)
    reads c, c.protocol, c.protocol.players, c.protocol.blueTeam, c.protocol.greenTeam
  {
    var p := c.protocol;
    match h
    case Kick => Untouched(c, Nothing) && Removed(c, args[0], args[1..], false, o)
    case Ban => Untouched(c, Nothing) && Removed(c, args[0], args[1..], true, o)
    case Kill =>
      var found := GetPlayer(p.players, args[0]);
      && Untouched(c, Nothing)
      && (found.None? ==> o == Raised(InvalidPlayer))
      && (found.Some? ==>
            && p.events == old(p.events) + [Killed(found.value), Chat(c.name + " killed " + found.value.name, true)]
            && o == Returned(Silent))
    case Mute => Untouched(c, Mutes) && MuteSet(c, args[0], true, o)
    case Unmute => Untouched(c, Mutes) && MuteSet(c, args[0], false, o)
    case Say =>
      && Untouched(c, Nothing)
      && p.events == old(p.events) + [Chat(Join(" ", args), false), IrcSay(Join(" ", args))] && o == Returned(Silent)
  }

  /** `Ran` for team locks and server settings: lock, unlock, setbalance, tweak. */
  twostate predicate SettingsRan(h: Handler, c: Connection, args: seq<string>, new o: Outcome)
    requires h.Lock? || h.Unlock? || h.SetBalance? || h.Tweak?
    requires Accepts(ArityOf(h), |args|)
    requires c.protocol.Valid()
    requires c.protocol.players == old(c.protocol.players)
    reads c, c.protocol, c.protocol.players, c.protocol.blueTeam, c.protocol.greenTeam
  {
    var p := c.protocol;
    match h
    case Lock => Untouched(c, Locks) && LockSet(c, args[0], true, o)
    case Unlock => Untouched(c, Locks) && LockSet(c, args[0], false, o)
    case SetBalance =>
      && Untouched(c, Balance)
      && (ParseInt(args[0]).None? ==>
            && o == Returned(Text("Invalid value " + AdminHandlers.QuotedText(args[0])
                                  + ". Use 0 for off, 1 and up for on"))
            && unchanged(p))
      && (ParseInt(args[0]).Some? ==>
            var n := ParseInt(args[0]).value;
            && p.balancedTeams == n
            && p.events == old(p.events) + [Chat("Balanced teams set to " + IntText(n), false),
                                            IrcSay("* " + c.name + " set balanced teams to " + IntText(n))]
            && o == Returned(Silent))
    case Tweak =>
      var key := AdminHandlers.KeyOf(args[0]);
      && Untouched(c, Tunings)
      && (|args| == 1 || key.None? ==> unchanged(p))
      && (|args| == 1 ==>
            o == Returned(if key.Some? then Text(AdminHandlers.TweakGet(p.Tunables(), key.value, p.floatText))
                          else Silent))
      && (|args| == 2 && key.None? ==> o == Returned(Silent))
      && (|args| == 2 && key.Some? ==>
            var next := AdminHandlers.TweakSet(old(p.Tunables()), key.value, args[1], p.parseFloat);
            && (next.None? ==> o == Raised(ValueError))
            && (next.Some? ==> o == Returned(Silent) && p.Tunables() == next.value && p.events == old(p.events)))
  }

  /** `Ran` for the three toggles. */
  twostate predicate FlagsRan(h: Handler, c: Connection, args: seq<string>, new o: Outcome)
    requires h.ToggleBuild? || h.ToggleKill? || h.ToggleTeamkill?
    requires Accepts(ArityOf(h), |args|)
    requires c.protocol.players == old(c.protocol.players)
    reads c, c.protocol, c.protocol.players, c.protocol.blueTeam, c.protocol.greenTeam
  {
    var p := c.protocol;
    && Untouched(c, Flags)
    && match h
    case ToggleBuild => Toggled(c, AdminHandlers.Building, o)
    case ToggleKill => Toggled(c, AdminHandlers.Killing, o)
    case ToggleTeamkill => Toggled(c, AdminHandlers.FriendlyFire, o)
  }

  /** `Ran` for the commands on the caller or a named player: god, switch. */
  twostate predicate SubjectRan(h: Handler, c: Connection, args: seq<string>, new o: Outcome)
    requires h.God? || h.Switch?
    requires Accepts(ArityOf(h), |args|)
    requires c.protocol.players == old(c.protocol.players)
    reads c, c.protocol, c.protocol.players, c.protocol.blueTeam, c.protocol.greenTeam
  {
    var p := c.protocol;
    match h
    case God =>
      var subject := old(AdminHandlers.Subject(c, Arg(args, 0)));
      && Untouched(c, Gods)
      && (subject.None? ==> o == Raised(InvalidPlayer))
      && (subject.Some? ==>
            var target := subject.value;
            && target.god == !old(target.god)
            && (c != target ==> c.god == old(c.god))
            && (forall q :: q in p.players && q != target ==> q.god == old(q.god))
            && p.events == old(p.events) +
                 [Chat(if target.god then target.name + " entered GOD MODE!"
                       else target.name + " returned to being a mere human.", true)]
            && o == Returned(Silent))
    case Switch =>
      var subject := old(AdminHandlers.Subject(c, Arg(args, 0)));
      && Untouched(c, Teams)
      && (subject.None? ==> o == Raised(InvalidPlayer))
      && (subject.Some? ==>
            var target := subject.value;
            && target.team == Other(old(target.team))
            && (c != target ==> c.team == old(c.team))
            && (forall q :: q in p.players && q != target ==> q.team == old(q.team))
            && p.events == old(p.events) + [Killed(target), Chat(target.name + " has switched teams", false)]
            && o == Returned(Silent))
  }

  /** `Ran` for moving and restoring players: heal, teleport, goto, reset_game. */
  twostate predicate PlayersRan(h: Handler, c: Connection, args: seq<string>, new o: Outcome)
    requires h.Heal? || h.Teleport? || h.Goto? || h.ResetGame?
    requires Accepts(ArityOf(h), |args|)
    requires c.protocol.players == old(c.protocol.players)
    reads c, c.protocol, c.protocol.players, c.protocol.blueTeam, c.protocol.greenTeam
  {
    var p := c.protocol;
    && Untouched(c, Nothing)
    && match h
    case Heal =>
      if |args| == 0 then
        p.events == old(p.events) + [Refilled(c), Chat(c.name + " was healed", true)] && o == Returned(Silent)
      else
        var found := GetPlayer(p.players, args[0]);
        && (found.None? ==> o == Raised(InvalidPlayer))
        && (found.Some? ==>
              && p.events == old(p.events) +
                   [Refilled(found.value), Chat(found.value.name + " was healed by " + c.name, true)]
              && o == Returned(Silent))
    case Teleport =>
      var first := GetPlayer(p.players, args[0]);
      var second := if |args| == 2 then GetPlayer(p.players, args[1]) else None;
      && (first.None? || (|args| == 2 && second.None?) ==> o == Raised(InvalidPlayer))
      && (first.Some? && |args| == 1 ==>
            && p.events == old(p.events) +
                 [Relocated(c, first.value), Chat(c.name + " teleported to " + first.value.name, true)]
            && o == Returned(Silent))
      && (first.Some? && second.Some? ==>
            && p.events == old(p.events) +
                 [Relocated(first.value, second.value),
                  Chat(c.name + " teleported " + first.value.name + " to " + second.value.name, true)]
            && o == Returned(Silent))
    case Goto =>
      && p.events == old(p.events) +
           [Delegated(Call.Goto(c, args[0])), Chat(c.name + " teleported to location " + Upper(args[0]), true)]
      && o == Returned(Silent)
    case ResetGame =>
      && p.events == old(p.events) + [Delegated(Call.ResetGame), Chat("Game has been reset by " + c.name, true)]
      && o == Returned(Silent)
  }

  /** `Ran` for the votekick commands: votekick, y, n, cancel. */
  twostate predicate VotesRan(h: Handler, c: Connection, args: seq<string>, new o: Outcome)
    requires h.Votekick? || h.VoteYes? || h.VoteNo? || h.CancelVote?
    requires Accepts(ArityOf(h), |args|)
    requires c.protocol.players == old(c.protocol.players)
    reads c, c.protocol, c.protocol.players, c.protocol.blueTeam, c.protocol.greenTeam
  {
    var p := c.protocol;
    && Untouched(c, Nothing)
    && match h
    case Votekick =>
      var found := GetPlayer(p.players, args[0]);
      && (found.None? ==> o == Raised(InvalidPlayer))
      && (found.Some? ==> Triggered(c, StartVotekick(c, found.value), Forwarded(StartVotekick(c, found.value)), o))
    case VoteYes => Triggered(c, Call.Votekick(c, true), Silent, o)
    case VoteNo => Triggered(c, Call.Votekick(c, false), Silent, o)
    case CancelVote => Triggered(c, CancelVotekick(c), Forwarded(CancelVotekick(c)), o)
  }

  /** `Ran` for the map features: airstrike and the rollback commands. */
  twostate predicate MapRan(h: Handler, c: Connection, args: seq<string>, new o: Outcome)
    requires h.Airstrike? || h.Rollmap? || h.Rollback? || h.RollbackCancel?
    requires c.protocol.players == old(c.protocol.players)
    reads c, c.protocol, c.protocol.players, c.protocol.blueTeam, c.protocol.greenTeam
  {
    var p := c.protocol;
    && Untouched(c, Nothing)
    && match h
    case Airstrike =>
      Triggered(c, StartAirstrike(c, Arg(args, 0)), Forwarded(StartAirstrike(c, Arg(args, 0))), o)
    case Rollmap =>
      var call := StartRollback(c, Arg(args, 0), Arg(args, 1));
      Triggered(c, call, Forwarded(call), o)
    case Rollback =>
      && (!c.admin ==> o == Returned(Text(Denied)) && unchanged(p))
      && (c.admin ==> Triggered(c, StartRollback(c, None, Arg(args, 0)), Silent, o))
    case RollbackCancel => Triggered(c, CancelRollback(c), Forwarded(CancelRollback(c)), o)
  }

  /** `Ran` for `help`. */
  twostate predicate HelpRan(c: Connection, list: seq<Command>, new o: Outcome)
    requires c.protocol.players == old(c.protocol.players)
    reads c, c.protocol, c.protocol.players, c.protocol.blueTeam, c.protocol.greenTeam
  {
    var p := c.protocol;
    && Untouched(c, Nothing)
    && (p.help.Some? ==> p.events == old(p.events) + [SendLines(c, p.help.value)] && o == Returned(Silent))
    && (p.help.None? ==>
          && p.events == old(p.events)
          && o == Returned(Text("Available commands: " + Join(", ", VisibleNames(list, c.admin)))))
  }

  /**
   * What running the handler `h` on the chat parameters `args` does to the
   * caller, the server and the reply: the contract of the handler body,
   * keyed on `h`, with `args` bound to its parameters as `RunBody` binds them
   * and `list` the command list `help` reads. Each case also names, by
   * `Untouched`, the one group of fields the handler may write (none for
   * most): every other field of the caller, the roster and the server keeps
   * its value. That an outcome which raises changes nothing is stated by
   * `Contained` for every handler at once.
   */
  twostate predicate Ran(list: seq<Command>, h: Handler, c: Connection, args: seq<string>, new o: Outcome)
    requires Accepts(ArityOf(h), |args|)
    requires c.protocol.Valid()
    requires c.protocol.players == old(c.protocol.players)
    reads c, c.protocol, c.protocol.players, c.protocol.blueTeam, c.protocol.greenTeam
  {
    if h.Help? then HelpRan(c, list, o)
    else if h.Rules? || h.Pm? || h.Streak? then InfoRan(h, c, args, o)
    else if h.Login? || h.Follow? || h.NoFollow? then AccountRan(h, c, args, o)
    else if h.Kick? || h.Ban? || h.Kill? || h.Mute? || h.Unmute? || h.Say? then ModerationRan(h, c, args, o)
    else if h.Lock? || h.Unlock? || h.SetBalance? || h.Tweak? then SettingsRan(h, c, args, o)
    else if h.ToggleBuild? || h.ToggleKill? || h.ToggleTeamkill? then FlagsRan(h, c, args, o)
    else if h.God? || h.Switch? then SubjectRan(h, c, args, o)
    else if h.Heal? || h.Teleport? || h.Goto? || h.ResetGame? then PlayersRan(h, c, args, o)
    else if h.Votekick? || h.VoteYes? || h.VoteNo? || h.CancelVote? then VotesRan(h, c, args, o)
    else MapRan(h, c, args, o)
  }

  /**
   * Runs the handler `h` with the chat parameters bound to its signature.
   * Every handler leaves the roster alone and only appends to the event
   * log; one that raises has changed nothing, and which exceptions are
   * possible depends on the handler.
   */
  method RunBody(list: seq<Command>, h: Handler, c: Connection, args: seq<string>) returns (o: Outcome)
    requires Accepts(ArityOf(h), |args|)
    requires c.protocol.Valid()
    modifies c, c.protocol, c.protocol.players, c.protocol.blueTeam, c.protocol.greenTeam
    ensures Contained(h, c, o)
    ensures Ran(list, h, c, args, o)
  {
    if h.Help? || h.Rules? || h.Pm? || h.Streak? || h.Login? || h.Follow? || h.NoFollow? {
      o := RunPersonal(list, h, c, args);
    } else {
      o := RunShared(list, h, c, args);
    }
  }

  /** `RunBody` for `help` and the commands that inform the caller or change its own session. */
  method RunPersonal(list: seq<Command>, h: Handler, c: Connection, args: seq<string>) returns (o: Outcome)
    requires h.Help? || h.Rules? || h.Pm? || h.Streak? || h.Login? || h.Follow? || h.NoFollow?
    requires Accepts(ArityOf(h), |args|)
    requires c.protocol.Valid()
    modifies c, c.protocol, c.protocol.players, c.protocol.blueTeam, c.protocol.greenTeam
    ensures Contained(h, c, o)
    ensures Ran(list, h, c, args, o)
  {
    if h.Help? {
      o := Session.Help(c, list);
    } else if h.Rules? || h.Pm? || h.Streak? {
      o := RunInfo(h, c, args);
    } else {
      o := RunAccount(h, c, args);
    }
  }

  /** `RunBody` for the commands that act on other players, the server or the game. */
  method RunShared(list: seq<Command>, h: Handler, c: Connection, args: seq<string>) returns (o: Outcome)
    requires !(h.Help? || h.Rules? || h.Pm? || h.Streak? || h.Login? || h.Follow? || h.NoFollow?)
    requires Accepts(ArityOf(h), |args|)
    requires c.protocol.Valid()
    modifies c, c.protocol, c.protocol.players, c.protocol.blueTeam, c.protocol.greenTeam
    ensures Contained(h, c, o)
    ensures Ran(list, h, c, args, o)
  {
    if h.Kick? || h.Ban? || h.Kill? || h.Mute? || h.Unmute? || h.Say? {
      o := RunModeration(h, c, args);
    } else if h.Lock? || h.Unlock? || h.SetBalance? || h.Tweak? {
      o := RunSettings(h, c, args);
    } else if h.ToggleBuild? || h.ToggleKill? || h.ToggleTeamkill? {
      o := RunFlags(h, c, args);
    } else if h.God? || h.Switch? {
      o := RunSubject(h, c, args);
    } else if h.Heal? || h.Teleport? || h.Goto? || h.ResetGame? {
      o := RunPlayers(h, c, args);
    } else if h.Votekick? || h.VoteYes? || h.VoteNo? || h.CancelVote? {
      o := RunVotes(h, c, args);
    } else {
      o := RunMap(h, c, args);
    }
  }

  /** `RunBody` for the commands that only inform: rules, pm, streak. */
  method RunInfo(h: Handler, c: Connection, args: seq<string>) returns (o: Outcome)
    requires h.Rules? || h.Pm? || h.Streak?
    requires Accepts(ArityOf(h), |args|)
    requires c.protocol.Valid()
    modifies c, c.protocol, c.protocol.players, c.protocol.blueTeam, c.protocol.greenTeam
    ensures Contained(h, c, o)
    ensures InfoRan(h, c, args, o)
  {
    match h {
      case Rules => o := Session.Rules(c);
      case Pm => o := Session.Pm(c, args[0], args[1..]);
      case Streak => o := Session.Streak(c);
    }
  }

  /** `RunBody` for the commands that change the caller's own state: login, follow, nofollow. */
  method RunAccount(h: Handler, c: Connection, args: seq<string>) returns (o: Outcome)
    requires h.Login? || h.Follow? || h.NoFollow?
    requires Accepts(ArityOf(h), |args|)
    requires c.protocol.Valid()
    modifies c, c.protocol, c.protocol.players, c.protocol.blueTeam, c.protocol.greenTeam
    ensures Contained(h, c, o)
    ensures AccountRan(h, c, args, o)
  {
    match h {
      case Login => o := Session.Login(c, args[0]);
      case Follow => o := Session.Follow(c, Arg(args, 0));
      case NoFollow => o := Session.NoFollow(c);
    }
  }

  /** `RunBody` for removing and punishing players: kick, ban, kill, mute, unmute, say. */
  method RunModeration(h: Handler, c: Connection, args: seq<string>) returns (o: Outcome)
    requires h.Kick? || h.Ban? || h.Kill? || h.Mute? || h.Unmute? || h.Say?
    requires Accepts(ArityOf(h), |args|)
    requires c.protocol.Valid()
    modifies c, c.protocol, c.protocol.players, c.protocol.blueTeam, c.protocol.greenTeam
    ensures Contained(h, c, o)
    ensures ModerationRan(h, c, args, o)
  {
    match h {
      case Kick => o := Delegating.Remove(c, args[0], args[1..], false);
      case Ban => o := Delegating.Remove(c, args[0], args[1..], true);
      case Kill => o := Delegating.Kill(c, args[0]);
      case Mute => o := AdminHandlers.SetMute(c, args[0], true);
      case Unmute => o := AdminHandlers.SetMute(c, args[0], false);
      case Say => o := Delegating.Say(c, args);
    }
  }

  /** `RunBody` for team locks and server settings: lock, unlock, setbalance, tweak. */
  method RunSettings(h: Handler, c: Connection, args: seq<string>) returns (o: Outcome)
    requires h.Lock? || h.Unlock? || h.SetBalance? || h.Tweak?
    requires Accepts(ArityOf(h), |args|)
    requires c.protocol.Valid()
    modifies c, c.protocol, c.protocol.players, c.protocol.blueTeam, c.protocol.greenTeam
    ensures Contained(h, c, o)
    ensures SettingsRan(h, c, args, o)
  {
    match h {
      case Lock => o := AdminHandlers.SetLock(c, args[0], true);
      case Unlock => o := AdminHandlers.SetLock(c, args[0], false);
      case SetBalance => o := AdminHandlers.SetBalance(c, args[0]);
      case Tweak => o := AdminHandlers.Tweak(c, args[0], Arg(args, 1));
    }
  }

  /** `RunBody` for the three toggles. */
  method RunFlags(h: Handler, c: Connection, args: seq<string>) returns (o: Outcome)
    requires h.ToggleBuild? || h.ToggleKill? || h.ToggleTeamkill?
    requires Accepts(ArityOf(h), |args|)
    requires c.protocol.Valid()
    modifies c, c.protocol, c.protocol.players, c.protocol.blueTeam, c.protocol.greenTeam
    ensures Contained(h, c, o)
    ensures FlagsRan(h, c, args, o)
  {
    match h {
      case ToggleBuild => o := AdminHandlers.Toggle(c, AdminHandlers.Building);
      case ToggleKill => o := AdminHandlers.Toggle(c, AdminHandlers.Killing);
      case ToggleTeamkill => o := AdminHandlers.Toggle(c, AdminHandlers.FriendlyFire);
    }
  }

  /** `RunBody` for the commands on the caller or a named player: god, switch. */
  method RunSubject(h: Handler, c: Connection, args: seq<string>) returns (o: Outcome)
    requires h.God? || h.Switch?
    requires Accepts(ArityOf(h), |args|)
    requires c.protocol.Valid()
    modifies c, c.protocol, c.protocol.players, c.protocol.blueTeam, c.protocol.greenTeam
    ensures Contained(h, c, o)
    ensures SubjectRan(h, c, args, o)
  {
    match h {
      case God => o := AdminHandlers.God(c, Arg(args, 0));
      case Switch => o := AdminHandlers.Switch(c, Arg(args, 0));
    }
  }

  /** `RunBody` for moving and restoring players: heal, teleport, goto, reset_game. */
  method RunPlayers(h: Handler, c: Connection, args: seq<string>) returns (o: Outcome)
    requires h.Heal? || h.Teleport? || h.Goto? || h.ResetGame?
    requires Accepts(ArityOf(h), |args|)
    requires c.protocol.Valid()
    modifies c, c.protocol, c.protocol.players, c.protocol.blueTeam, c.protocol.greenTeam
    ensures Contained(h, c, o)
    ensures PlayersRan(h, c, args, o)
  {
    match h {
      case Heal => o := Delegating.Heal(c, Arg(args, 0));
      case Teleport => o := Delegating.Teleport(c, args[0], Arg(args, 1));
      case Goto => o := Delegating.Goto(c, args[0]);
      case ResetGame => o := Delegating.ResetGame(c);
    }
  }

  /** `RunBody` for the votekick commands: votekick, y, n, cancel. */
  method RunVotes(h: Handler, c: Connection, args: seq<string>) returns (o: Outcome)
    requires h.Votekick? || h.VoteYes? || h.VoteNo? || h.CancelVote?
    requires Accepts(ArityOf(h), |args|)
    requires c.protocol.Valid()
    modifies c, c.protocol, c.protocol.players, c.protocol.blueTeam, c.protocol.greenTeam
    ensures Contained(h, c, o)
    ensures VotesRan(h, c, args, o)
  {
    match h {
      case Votekick => o := Delegating.Votekick(c, args[0]);
      case VoteYes => o := Delegating.Vote(c, true);
      case VoteNo => o := Delegating.Vote(c, false);
      case CancelVote => o := Delegating.CancelVote(c);
    }
  }

  /** `RunBody` for the map features: airstrike and the rollback commands. */
  method RunMap(h: Handler, c: Connection, args: seq<string>) returns (o: Outcome)
    requires h.Airstrike? || h.Rollmap? || h.Rollback? || h.RollbackCancel?
    requires Accepts(ArityOf(h), |args|)
    requires c.protocol.Valid()
    modifies c, c.protocol, c.protocol.players, c.protocol.blueTeam, c.protocol.greenTeam
    ensures Contained(h, c, o)
    ensures MapRan(h, c, args, o)
  {
    match h {
      case Airstrike => o := Delegating.Airstrike(c, Arg(args, 0));
      case Rollmap => o := Delegating.Rollmap(c, Arg(args, 0), Arg(args, 1));
      case Rollback => o := Delegating.Rollback(c, Arg(args, 0));
      case RollbackCancel => o := Delegating.RollbackCancel(c);
    }
  }

  /**
   * `handle_command(connection, command, parameters)` against the registry
   * `commands` that `Register` builds from `list`, the module's
   * `command_list` (`Registry.CommandList()`); `help` lists the same `list`.
   * An unknown name, a caller without
   * rights for a gated command and a wrong number of parameters are answered
   * before any handler runs and change nothing. Otherwise the handler runs
   * (its outcome is the ghost `body`) and the reply is what it returned or
   * the text for what it raised, except that the `admin` wrapper drops what
   * a gated handler returned (see `Respond`).
   */
  method HandleCommand(list: seq<Command>, c: Connection, command: string, parameters: seq<string>)
    returns (reply: Reply, ghost body: Option<Outcome>)
    requires c.protocol.Valid()
    modifies c, c.protocol, c.protocol.players, c.protocol.blueTeam, c.protocol.greenTeam
    ensures c.protocol.players == old(c.protocol.players)
    ensures old(c.protocol.events) <= c.protocol.events
    ensures body.None? || body.value.Raised? ==>
      unchanged(c, c.protocol, c.protocol.blueTeam, c.protocol.greenTeam) && unchanged(c.protocol.players)
    ensures Lookup(Register(list), command).None? ==> body.None? && reply == Text(InvalidCommand)
    ensures Lookup(Register(list), command).Some? ==>
      var entry := Lookup(Register(list), command).value;
      && (!Visible(entry, old(c.admin)) ==> body.None? && reply == Text(Denied))
      && (Visible(entry, old(c.admin)) && !Accepts(ArityOf(entry.handler), |parameters|) ==>
            body.None? && reply == Text("Invalid number of arguments for " + Lower(command)))
      && (Visible(entry, old(c.admin)) && Accepts(ArityOf(entry.handler), |parameters|) ==>
            && body.Some? && reply == Respond(Lower(command), entry, body.value)
            && Ran(list, entry.handler, c, parameters, body.value))
  {
    var entry := Lookup(Register(list), command);
    if entry.None? {
      return Text(InvalidCommand), None;
    }
    var e := entry.value;
    if e.admin && !c.admin {
      return Text(Denied), None;
    }
    if !Accepts(ArityOf(e.handler), |parameters|) {
      return Text(FailureText(Lower(command), TypeError)), None;
    }
    var o := RunBody(list, e.handler, c, parameters);
    reply, body := Respond(Lower(command), e, o), Some(o);
  }
}
