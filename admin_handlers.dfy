/**
 * The bodies of the admin-only handlers that change server or player state:
 * the three flag toggles, `setbalance`, `lock`/`unlock`, `mute`/`unmute`,
 * `god`, `switch` and `tweak`. The admin check itself and the discarding of
 * their return values happen in the dispatcher's gate.
 */
module AdminHandlers {
  import opened Wrappers
  import opened Text
  import opened State
  import opened Resolve

  // ---------------------------------------------------------------- toggles

  /** The process-wide flags `togglebuild`, `togglekill` and `toggleteamkill` flip. */
  datatype Setting = Building | Killing | FriendlyFire

  function SettingValue(p: Protocol, s: Setting): bool
    reads p
  {
    match s
    case Building => p.building
    case Killing => p.killing
    case FriendlyFire => p.friendlyFire
  }

  /** `['OFF', 'ON'][int(value)]`. */
  function OnOff(b: bool): string {
    if b then "ON" else "OFF"
  }

  /** The announcements of a toggle, server chat first and IRC second. */
  function ToggleAnnouncements(s: Setting, caller: string, value: bool): seq<Event> {
    match s
    case Building =>
      [Chat("Building has been toggled " + OnOff(value) + "!", false),
       IrcSay("* " + caller + " toggled building " + OnOff(value))]
    case Killing =>
      [Chat("Killing has been toggled " + OnOff(value) + "!", false),
       IrcSay("* " + caller + " toggled killing " + OnOff(value))]
    case FriendlyFire =>
      [Chat("Friendly fire has been toggled " + OnOff(value) + "!", false),
       IrcSay("* " + caller + " toggled friendly fire " + OnOff(value))]
  }

  /**
   * `toggle_build`, `toggle_kill`, `toggle_teamkill`: negate one flag, leave
   * the other two alone and announce the new value.
   */
  method Toggle(c: Connection, s: Setting) returns (o: Outcome)
    modifies c.protocol`building, c.protocol`killing, c.protocol`friendlyFire, c.protocol`events
    ensures SettingValue(c.protocol, s) == !old(SettingValue(c.protocol, s))
    ensures forall t :: t != s ==> SettingValue(c.protocol, t) == old(SettingValue(c.protocol, t))
    ensures c.protocol.events ==
      old(c.protocol.events) + ToggleAnnouncements(s, c.name, SettingValue(c.protocol, s))
    ensures o == Returned(Silent)
    ensures Untouched(c, Flags)
  {
    var p := c.protocol;
    var value := !SettingValue(p, s);
    match s {
      case Building => p.building := value;
      case Killing => p.killing := value;
      case FriendlyFire => p.friendlyFire := value;
    }
    p.events := p.events + ToggleAnnouncements(s, c.name, value);
    o := Returned(Silent);
  }

  /** Toggling the same flag twice restores every flag and announces both changes. */
  method ToggleTwice(c: Connection, s: Setting)
    modifies c.protocol`building, c.protocol`killing, c.protocol`friendlyFire, c.protocol`events
    ensures forall t :: SettingValue(c.protocol, t) == old(SettingValue(c.protocol, t))
    ensures c.protocol.events == old(c.protocol.events)
      + ToggleAnnouncements(s, c.name, !old(SettingValue(c.protocol, s)))
      + ToggleAnnouncements(s, c.name, old(SettingValue(c.protocol, s)))
  {
    var first := Toggle(c, s);
    var second := Toggle(c, s);
  }

  // ---------------------------------------------------------------- setbalance

  /** `'%r' % value` for a string, without Python's escaping of special characters. */
  function QuotedText(value: string): string {
    "'" + value + "'"
  }

  /**
   * `set_balance`: a non-integer value is answered with a usage message and
   * changes nothing; an integer is stored in `balanced_teams` and announced.
   */
  method SetBalance(c: Connection, value: string) returns (o: Outcome)
    modifies c.protocol`balancedTeams, c.protocol`events
    ensures ParseInt(value).None? ==>
      && o == Returned(Text("Invalid value " + QuotedText(value) + ". Use 0 for off, 1 and up for on"))
      && unchanged(c.protocol)
    ensures ParseInt(value).Some? ==>
      var n := ParseInt(value).value;
      && c.protocol.balancedTeams == n
      && c.protocol.events == old(c.protocol.events) +
           [Chat("Balanced teams set to " + IntText(n), false),
            IrcSay("* " + c.name + " set balanced teams to " + IntText(n))]
      && o == Returned(Silent)
    ensures Untouched(c, Balance)
  {
    var p := c.protocol;
    var parsed := ParseInt(value);
    if parsed.None? {
      return Returned(Text("Invalid value " + QuotedText(value) + ". Use 0 for off, 1 and up for on"));
    }
    var n := parsed.value;
    p.balancedTeams := n;
    p.events := p.events + [Chat("Balanced teams set to " + IntText(n), false),
                            IrcSay("* " + c.name + " set balanced teams to " + IntText(n))];
    o := Returned(Silent);
  }

  // ---------------------------------------------------------------- lock / unlock

  /**
   * `lock` (with `locked` true) and `unlock` (false): resolve the team, set
   * its flag, announce it; the other team is untouched.
   */
  method SetLock(c: Connection, value: string, locked: bool) returns (o: Outcome)
    requires c.protocol.Valid()
    modifies c.protocol.blueTeam`locked, c.protocol.greenTeam`locked, c.protocol`events
    ensures GetTeam(value).None? ==>
      && o == Raised(InvalidTeam)
      && unchanged(c.protocol, c.protocol.blueTeam, c.protocol.greenTeam)
    ensures GetTeam(value).Some? ==>
      var color := GetTeam(value).value;
      var team := c.protocol.TeamOf(color);
      var verb := if locked then "locked" else "unlocked";
      && team.locked == locked
      && c.protocol.TeamOf(Other(color)).locked == old(c.protocol.TeamOf(Other(color)).locked)
      && c.protocol.events == old(c.protocol.events) +
           [Chat(team.name + " team is now " + verb, false),
            IrcSay("* " + c.name + " " + verb + " " + team.name + " team")]
      && o == Returned(Silent)
    ensures Untouched(c, Locks)
  {
    var p := c.protocol;
    var color := GetTeam(value);
    if color.None? {
      return Raised(InvalidTeam);
    }
    var team := p.TeamOf(color.value);
    team.locked := locked;
    var verb := if locked then "locked" else "unlocked";
    p.events := p.events + [Chat(team.name + " team is now " + verb, false),
                            IrcSay("* " + c.name + " " + verb + " " + team.name + " team")];
    o := Returned(Silent);
  }

  // ---------------------------------------------------------------- mute / unmute

  /**
   * `mute` (with `muted` true) and `unmute` (false): resolve the player, set
   * its mute flag and announce it; no other player's flag changes.
   */
  method SetMute(c: Connection, value: string, muted: bool) returns (o: Outcome)
    modifies c.protocol.players`mute, c.protocol`events
    ensures c.protocol.players == old(c.protocol.players)
    ensures GetPlayer(c.protocol.players, value).None? ==>
      o == Raised(InvalidPlayer) && unchanged(c.protocol) && unchanged(c.protocol.players)
    ensures GetPlayer(c.protocol.players, value).Some? ==>
      var target := GetPlayer(c.protocol.players, value).value;
      var verb := if muted then "muted" else "unmuted";
      && target.mute == muted
      && (forall q :: (q == c || q in c.protocol.players) && q != target ==> q.mute == old(q.mute))
      && c.protocol.events == old(c.protocol.events) +
           [Chat(target.name + " has been " + verb + " by " + c.name, true)]
      && o == Returned(Silent)
    ensures Untouched(c, Mutes)
  {
    var p := c.protocol;
    var found := GetPlayer(p.players, value);
    if found.None? {
      return Raised(InvalidPlayer);
    }
    var target := found.value;
    target.mute := muted;
    var verb := if muted then "muted" else "unmuted";
    p.events := p.events + [Chat(target.name + " has been " + verb + " by " + c.name, true)];
    o := Returned(Silent);
  }

  // ---------------------------------------------------------------- god / switch

  /** The player an optional argument names: the caller when absent. */
  function Subject(c: Connection, value: Option<string>): (r: Option<Connection>)
    reads c.protocol
    ensures r.Some? ==> r.value == c || r.value in c.protocol.players
  {
    if value.None? then Some(c) else GetPlayer(c.protocol.players, value.value)
  }

  /** `god`: negates the god flag of the caller or of the named player and announces it. */
  method God(c: Connection, value: Option<string>) returns (o: Outcome)
    modifies c`god, c.protocol.players`god, c.protocol`events
    ensures c.protocol.players == old(c.protocol.players)
    ensures old(Subject(c, value)).None? ==>
      o == Raised(InvalidPlayer) && unchanged(c, c.protocol) && unchanged(c.protocol.players)
    ensures old(Subject(c, value)).Some? ==>
      var target := old(Subject(c, value)).value;
      && target.god == !old(target.god)
      && (forall q :: (q == c || q in c.protocol.players) && q != target ==> q.god == old(q.god))
      && c.protocol.events == old(c.protocol.events) +
           [Chat(if target.god then target.name + " entered GOD MODE!"
                 else target.name + " returned to being a mere human.", true)]
      && o == Returned(Silent)
    ensures Untouched(c, Gods)
  {
    var p := c.protocol;
    var found := Subject(c, value);
    if found.None? {
      return Raised(InvalidPlayer);
    }
    var target := found.value;
    target.god := !target.god;
    var message := if target.god then target.name + " entered GOD MODE!"
                   else target.name + " returned to being a mere human.";
    p.events := p.events + [Chat(message, true)];
    o := Returned(Silent);
  }

  /** `switch`: moves the caller or the named player to the other team, kills it and announces it. */
  method Switch(c: Connection, value: Option<string>) returns (o: Outcome)
    modifies c`team, c.protocol.players`team, c.protocol`events
    ensures c.protocol.players == old(c.protocol.players)
    ensures old(Subject(c, value)).None? ==>
      o == Raised(InvalidPlayer) && unchanged(c, c.protocol) && unchanged(c.protocol.players)
    ensures old(Subject(c, value)).Some? ==>
      var target := old(Subject(c, value)).value;
      && target.team == Other(old(target.team))
      && (forall q :: (q == c || q in c.protocol.players) && q != target ==> q.team == old(q.team))
      && c.protocol.events == old(c.protocol.events) +
           [Killed(target), Chat(target.name + " has switched teams", false)]
      && o == Returned(Silent)
    ensures Untouched(c, Teams)
  {
    var p := c.protocol;
    var found := Subject(c, value);
    if found.None? {
      return Raised(InvalidPlayer);
    }
    var target := found.value;
    target.team := Other(target.team);
    p.events := p.events + [Killed(target), Chat(target.name + " has switched teams", false)];
    o := Returned(Silent);
  }

  /** `god` twice on the same argument restores every god flag. */
  method GodTwice(c: Connection, value: Option<string>)
    modifies c`god, c.protocol.players`god, c.protocol`events
    ensures forall q :: q == c || q in c.protocol.players ==> q.god == old(q.god)
  {
    var first := God(c, value);
    var second := God(c, value);
  }

  // ---------------------------------------------------------------- tweak

  /** The keys `tweak` understands. */
  datatype TweakKey = Rows | Packets | Uniques | Time | Airstrikes | MinScore | StreakReq

  function KeyOf(name: string): (k: Option<TweakKey>)
    ensures k.Some? ==> KeyName(k.value) == name
  {
    if name == "rows" then Some(Rows)
    else if name == "packets" then Some(Packets)
    else if name == "uniques" then Some(Uniques)
    else if name == "time" then Some(Time)
    else if name == "airstrikes" then Some(Airstrikes)
    else if name == "minscore" then Some(MinScore)
    else if name == "streak" then Some(StreakReq)
    else None
  }

  function KeyName(k: TweakKey): string {
    match k
    case Rows => "rows"
    case Packets => "packets"
    case Uniques => "uniques"
    case Time => "time"
    case Airstrikes => "airstrikes"
    case MinScore => "minscore"
    case StreakReq => "streak"
  }

  /** Each key is reached by its own name and by no other. */
  lemma KeyNamesRoundTrip(k: TweakKey)
    ensures KeyOf(KeyName(k)) == Some(k)
  {
  }

  /** The keys whose value is an integer parsed with `int(value)`. */
  predicate IsIntegerKey(k: TweakKey) {
    k != Time && k != Airstrikes
  }

  function IntegerValue(t: Tunables, k: TweakKey): int
    requires IsIntegerKey(k)
  {
    match k
    case Rows => t.rows
    case Packets => t.packets
    case Uniques => t.uniques
    case MinScore => t.minScore
    case StreakReq => t.streak
  }

  /** Get mode: `'%s' % value` of the key's current value. */
  function TweakGet(t: Tunables, k: TweakKey, floatText: real -> string): string {
    match k
    case Time => floatText(t.time)
    case Airstrikes => BoolText(t.airstrikes)
    case _ => IntText(IntegerValue(t, k))
  }

  /**
   * Set mode: the tunables after assigning the parsed `value` to key `k`;
   * `None` is the `ValueError` of `int()` or `float()`.
   */
  function TweakSet(t: Tunables, k: TweakKey, value: string, parseFloat: string -> Option<real>): Option<Tunables> {
    match k
    case Time => if parseFloat(value).Some? then Some(t.(time := parseFloat(value).value)) else None
    case Airstrikes => Some(t.(airstrikes := value != "0"))
    case _ =>
      match ParseInt(value)
      case None => None
      case Some(n) =>
        Some(match k
             case Rows => t.(rows := n)
             case Packets => t.(packets := n)
             case Uniques => t.(uniques := n)
             case MinScore => t.(minScore := n)
             case StreakReq => t.(streak := n))
  }

  /**
   * Setting an integer key succeeds exactly when `int(value)` does, and then
   * reading it back gives `str(int(value))`; the other keys keep their values.
   */
  lemma TweakIntegerRoundTrip(t: Tunables, k: TweakKey, value: string, parseFloat: string -> Option<real>,
                              floatText: real -> string)
    requires IsIntegerKey(k)
    ensures TweakSet(t, k, value, parseFloat).Some? <==> ParseInt(value).Some?
    ensures TweakSet(t, k, value, parseFloat).Some? ==>
      var t' := TweakSet(t, k, value, parseFloat).value;
      && TweakGet(t', k, floatText) == IntText(ParseInt(value).value)
      && forall other :: other != k ==> TweakGet(t', other, floatText) == TweakGet(t, other, floatText)
  {
  }

  /** Setting an integer key to `str(n)` and reading it back gives `str(n)` again. */
  lemma TweakSetThenGet(t: Tunables, k: TweakKey, n: int, parseFloat: string -> Option<real>,
                        floatText: real -> string)
    requires IsIntegerKey(k)
    ensures TweakSet(t, k, IntText(n), parseFloat).Some?
    ensures TweakGet(TweakSet(t, k, IntText(n), parseFloat).value, k, floatText) == IntText(n)
  {
    ParseIntText(n);
    TweakIntegerRoundTrip(t, k, IntText(n), parseFloat, floatText);
  }

  /** `airstrikes` is switched off by exactly the value `0` and read back as `True`/`False`. */
  lemma TweakAirstrikesRoundTrip(t: Tunables, value: string, parseFloat: string -> Option<real>,
                                 floatText: real -> string)
    ensures TweakSet(t, Airstrikes, value, parseFloat).Some?
    ensures TweakGet(TweakSet(t, Airstrikes, value, parseFloat).value, Airstrikes, floatText) ==
            (if value == "0" then "False" else "True")
  {
  }

  /**
   * `tweak`: without a value, replies with the key's current value (nothing
   * for an unknown key); with one, parses and assigns it, replying nothing.
   * A value that does not parse raises `ValueError` and changes nothing.
   */
  method Tweak(c: Connection, name: string, value: Option<string>) returns (o: Outcome)
    modifies c.protocol`rollbackMaxRows, c.protocol`rollbackMaxPackets, c.protocol`rollbackMaxUniquePackets,
             c.protocol`rollbackTimeBetweenCycles, c.protocol`airstrikes,
             c.protocol`airstrikeMinScoreReq, c.protocol`airstrikeStreakReq
    ensures value.None? || KeyOf(name).None? ==> unchanged(c.protocol)
    ensures value.None? ==>
      o == Returned(if KeyOf(name).Some?
                    then Text(TweakGet(c.protocol.Tunables(), KeyOf(name).value, c.protocol.floatText))
                    else Silent)
    ensures value.Some? && KeyOf(name).None? ==> o == Returned(Silent)
    ensures value.Some? && KeyOf(name).Some? ==>
      var next := TweakSet(old(c.protocol.Tunables()), KeyOf(name).value, value.value, c.protocol.parseFloat);
      && (next.None? ==> o == Raised(ValueError) && unchanged(c.protocol))
      && (next.Some? ==> o == Returned(Silent) && c.protocol.Tunables() == next.value)
    ensures Untouched(c, Tunings)
  {
    var p := c.protocol;
    var key := KeyOf(name);
    if key.None? {
      return Returned(Silent);
    }
    if value.None? {
      return Returned(Text(TweakGet(p.Tunables(), key.value, p.floatText)));
    }
    var next := TweakSet(p.Tunables(), key.value, value.value, p.parseFloat);
    if next.None? {
      return Raised(ValueError);
    }
    var t := next.value;
    p.rollbackMaxRows, p.rollbackMaxPackets, p.rollbackMaxUniquePackets := t.rows, t.packets, t.uniques;
    p.rollbackTimeBetweenCycles, p.airstrikes := t.time, t.airstrikes;
    p.airstrikeMinScoreReq, p.airstrikeStreakReq := t.minScore, t.streak;
    o := Returned(Silent);
  }
}
