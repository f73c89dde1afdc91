/**
 * The command registry: the handler descriptors with their Python arity, the
 * `admin` and `name` decorators as operations on descriptors, the ordered
 * `command_list`, the `commands` dictionary built from it, the
 * case-insensitive lookup and the name listing `help` shows.
 */
module Registry {
  import opened Wrappers
  import opened Text

  /** The handler functions of the command module, one per entry of `command_list`. */
  datatype Handler =
    | Help | Pm | Login | Kick | Votekick | VoteYes | VoteNo | CancelVote | Ban | Mute | Unmute
    | Say | Kill | Heal | Lock | Unlock | Switch | SetBalance | Rules | ToggleBuild | ToggleKill
    | ToggleTeamkill | Teleport | Goto | God | Follow | NoFollow | Airstrike | Streak | ResetGame
    | Rollmap | Rollback | RollbackCancel | Tweak

  /**
   * The positional parameters a handler's Python signature takes after the
   * connection: `required` ones, then `optional` ones with a default, then
   * possibly `*arg`.
   */
  datatype Arity = Arity(required: nat, optional: nat, variadic: bool)

  /** Whether a call with `n` positional arguments binds, rather than raising `TypeError`. */
  predicate Accepts(a: Arity, n: nat) {
    a.required <= n && (a.variadic || n <= a.required + a.optional)
  }

  /** How many of the positional arguments went to required parameters, to optional ones and to `*arg`. */
  datatype Binding = Binding(required: nat, optional: nat, rest: nat)

  /**
   * Python's binding of `n` positional arguments to the signature `a`, step
   * by step: the required parameters take the first ones, the optional
   * parameters the next ones, and whatever is left goes to `*arg`. `None`
   * when a required parameter gets no value or the leftovers have nowhere
   * to go.
   */
  function Bind(a: Arity, n: nat): Option<Binding> {
    var required := if n < a.required then n else a.required;
    var optional := if n - required < a.optional then n - required else a.optional;
    var rest := n - required - optional;
    if required < a.required || (rest > 0 && !a.variadic) then None
    else Some(Binding(required, optional, rest))
  }

  /**
   * `Accepts` is exactly the calls Python binds, and a binding fills every
   * required parameter, uses every argument, and passes arguments to `*arg`
   * only once the optional parameters are filled.
   */
  lemma AcceptsBinds(a: Arity, n: nat)
    ensures Accepts(a, n) <==> Bind(a, n).Some?
    ensures Bind(a, n).Some? ==>
      var b := Bind(a, n).value;
      && b.required == a.required
      && b.required + b.optional + b.rest == n
      && (b.rest > 0 ==> b.optional == a.optional)
  {
  }

  /**
   * Each handler's signature after the connection, as its `def` line writes
   * it. None takes more than one required or two named parameters, and the
   * ones with `*arg` have no defaults.
   */
  function ArityOf(h: Handler): (a: Arity)
    ensures a.required <= 1 && a.required + a.optional <= 2
    ensures a.variadic ==> a.optional == 0
  {
    match h
    case Pm | Kick | Ban => Arity(1, 0, true)
    case Say => Arity(0, 0, true)
    case Login | Votekick | Mute | Unmute | Kill | Lock | Unlock | SetBalance | Goto => Arity(1, 0, false)
    case Heal | Switch | God | Follow | Airstrike | Rollback => Arity(0, 1, false)
    case Teleport | Tweak => Arity(1, 1, false)
    case Rollmap => Arity(0, 2, false)
    case Help | VoteYes | VoteNo | CancelVote | Rules | ToggleBuild | ToggleKill | ToggleTeamkill
      | NoFollow | Streak | ResetGame | RollbackCancel => Arity(0, 0, false)
  }

  /**
   * A registered command: the name it is invoked by (`func_name`), the
   * handler it runs and whether it carries the `admin` marker.
   */
  datatype Command = Command(name: string, handler: Handler, admin: bool)

  /** A plain `def name(...)` for the handler `h`: registered under its `def` name, no marker. */
  function Def(h: Handler, name: string): (c: Command)
    ensures c.handler == h && c.name == name && !c.admin
  {
    Command(name, h, false)
  }

  /** What the `admin` wrapper replies to a caller without rights. */
  const Denied := "No administrator rights!"

  /** The `admin` decorator: the wrapper keeps the function's name and adds the marker. */
  function Admin(c: Command): (r: Command)
    ensures r.name == c.name && r.handler == c.handler && r.admin
  {
    c.(admin := true)
  }

  /** The `name` decorator: renames the function and keeps everything else. */
  function Name(newName: string, c: Command): (r: Command)
    ensures r.name == newName && r.handler == c.handler && r.admin == c.admin
  {
    c.(name := newName)
  }

  /** `command_list`, in its source order, with each entry's decorators applied. */
  function CommandList(): seq<Command> {
    ListGeneral() + ListModeration() + ListServer() + ListFeatures()
  }

  // The four parts of `command_list`, kept apart so that facts about the
  // literal entries are proved a few entries at a time.

  function ListGeneral(): seq<Command> {
    [ Def(Help, "help"),
      Def(Pm, "pm"),
      Def(Login, "login"),
      Admin(Def(Kick, "kick")),
      Def(Votekick, "votekick"),
      Name("y", Def(VoteYes, "vote_yes")),
      Name("n", Def(VoteNo, "vote_no")),
      Name("cancel", Def(CancelVote, "cancel_vote")) ]
  }

  function ListModeration(): seq<Command> {
    [ Admin(Def(Ban, "ban")),
      Admin(Def(Mute, "mute")),
      Admin(Def(Unmute, "unmute")),
      Admin(Def(Say, "say")),
      Admin(Def(Kill, "kill")),
      Admin(Def(Heal, "heal")),
      Admin(Def(Lock, "lock")),
      Admin(Def(Unlock, "unlock")),
      Admin(Def(Switch, "switch")) ]
  }

  function ListServer(): seq<Command> {
    [ Name("setbalance", Admin(Def(SetBalance, "set_balance"))),
      Def(Rules, "rules"),
      Name("togglebuild", Admin(Def(ToggleBuild, "toggle_build"))),
      Name("togglekill", Admin(Def(ToggleKill, "toggle_kill"))),
      Name("toggleteamkill", Admin(Def(ToggleTeamkill, "toggle_teamkill"))),
      Admin(Def(Teleport, "teleport")),
      Admin(Def(Goto, "goto")),
      Admin(Def(God, "god")) ]
  }

  function ListFeatures(): seq<Command> {
    [ Def(Follow, "follow"),
      Name("nofollow", Def(NoFollow, "no_follow")),
      Def(Airstrike, "airstrike"),
      Def(Streak, "streak"),
      Admin(Def(ResetGame, "reset_game")),
      Admin(Def(Rollmap, "rollmap")),
      Admin(Def(Rollback, "rollback")),
      Admin(Def(RollbackCancel, "rollbackcancel")),
      Admin(Def(Tweak, "tweak")) ]
  }

  /** The dictionary that inserting the entries of `list` one after another produces. */
  function Register(list: seq<Command>): map<string, Command> {
    if |list| == 0 then map[]
    else Register(list[..|list| - 1])[list[|list| - 1].name := list[|list| - 1]]
  }

  /**
   * The loop that fills `commands`: one insertion per entry, so a later entry
   * with the same name silently replaces an earlier one.
   */
  method BuildRegistry(list: seq<Command>) returns (commands: map<string, Command>)
    ensures commands == Register(list)
    ensures forall n :: n in commands <==> exists i :: 0 <= i < |list| && list[i].name == n
  {
    commands := map[];
    var k := 0;
    while k < |list|
      invariant 0 <= k <= |list|
      invariant commands == Register(list[..k])
    {
      assert list[..k + 1][..k] == list[..k];
      commands := commands[list[k].name := list[k]];
      k := k + 1;
    }
    assert list[..k] == list;
    RegisterHolds(list);
  }

  /**
   * A name is registered exactly when some entry carries it, and it maps to
   * the LAST entry carrying it.
   */
  lemma {:induction false} RegisterHolds(list: seq<Command>)
    ensures forall n :: n in Register(list) <==> exists i :: 0 <= i < |list| && list[i].name == n
    ensures forall n :: n in Register(list) ==>
      exists i :: 0 <= i < |list| && list[i].name == n && Register(list)[n] == list[i] &&
                  forall j :: i < j < |list| ==> list[j].name != n
  {
    if |list| > 0 {
      var init, last := list[..|list| - 1], list[|list| - 1];
      RegisterHolds(init);
      forall n | n in Register(list)
        ensures exists i :: 0 <= i < |list| && list[i].name == n && Register(list)[n] == list[i] &&
                            forall j :: i < j < |list| ==> list[j].name != n
      {
        if n == last.name {
          assert list[|list| - 1].name == n;
        } else {
          assert n in Register(init);
          var i :| 0 <= i < |init| && init[i].name == n && Register(init)[n] == init[i] &&
                   forall j :: i < j < |init| ==> init[j].name != n;
          assert list[i] == init[i];
        }
      }
      forall n | exists i :: 0 <= i < |list| && list[i].name == n
        ensures n in Register(list)
      {
        var i :| 0 <= i < |list| && list[i].name == n;
        if i < |init| {
          assert init[i].name == n;
        }
      }
    }
  }

  predicate NamesDistinct(list: seq<Command>) {
    forall i, j :: 0 <= i < j < |list| ==> list[i].name != list[j].name
  }

  /** With distinct names every entry is reachable under its own name. */
  lemma RegisterDistinct(list: seq<Command>, i: nat)
    requires NamesDistinct(list) && i < |list|
    ensures list[i].name in Register(list) && Register(list)[list[i].name] == list[i]
  {
  }

  /** The names of the entries of `list`, in order. */
  function NamesOf(list: seq<Command>): (names: seq<string>)
    ensures |names| == |list| && forall i :: 0 <= i < |list| ==> names[i] == list[i].name
  {
    seq(|list|, i requires 0 <= i < |list| => list[i].name)
  }

  /** The names `command_list` registers, as the decorators leave them. */
  function RegisteredNames(): seq<string> {
    GeneralNames() + ModerationNames() + ServerNames() + FeatureNames()
  }

  function GeneralNames(): seq<string> {
    ["help", "pm", "login", "kick", "votekick", "y", "n", "cancel"]
  }

  function ModerationNames(): seq<string> {
    ["ban", "mute", "unmute", "say", "kill", "heal", "lock", "unlock", "switch"]
  }

  function ServerNames(): seq<string> {
    ["setbalance", "rules", "togglebuild", "togglekill", "toggleteamkill", "teleport", "goto", "god"]
  }

  function FeatureNames(): seq<string> {
    ["follow", "nofollow", "airstrike", "streak", "reset_game", "rollmap", "rollback",
     "rollbackcancel", "tweak"]
  }

  lemma NamesOfAppend(a: seq<Command>, b: seq<Command>)
    ensures NamesOf(a + b) == NamesOf(a) + NamesOf(b)
  {
  }

  lemma GeneralNamesListed() ensures NamesOf(ListGeneral()) == GeneralNames() { }
  lemma ModerationNamesListed() ensures NamesOf(ListModeration()) == ModerationNames() { }
  lemma ServerNamesListed() ensures NamesOf(ListServer()) == ServerNames() { }
  lemma FeatureNamesListed() ensures NamesOf(ListFeatures()) == FeatureNames() { }

  lemma CommandListNames()
    ensures NamesOf(CommandList()) == RegisteredNames()
  {
    GeneralNamesListed();
    ModerationNamesListed();
    ServerNamesListed();
    FeatureNamesListed();
    NamesOfAppend(ListGeneral(), ListModeration());
    NamesOfAppend(ListGeneral() + ListModeration(), ListServer());
    NamesOfAppend(ListGeneral() + ListModeration() + ListServer(), ListFeatures());
  }

  predicate Distinct(names: seq<string>) {
    forall i, j :: 0 <= i < j < |names| ==> names[i] != names[j]
  }

  predicate Disjoint(a: seq<string>, b: seq<string>) {
    forall i, j :: 0 <= i < |a| && 0 <= j < |b| ==> a[i] != b[j]
  }

  lemma DistinctAppend(a: seq<string>, b: seq<string>)
    requires Distinct(a) && Distinct(b) && Disjoint(a, b)
    ensures Distinct(a + b)
  {
  }

  lemma DisjointAppend(a: seq<string>, b: seq<string>, c: seq<string>)
    requires Disjoint(a, c) && Disjoint(b, c)
    ensures Disjoint(a + b, c)
  {
  }

  lemma GeneralNamesDistinct() ensures Distinct(GeneralNames()) { }
  lemma ModerationNamesDistinct() ensures Distinct(ModerationNames()) { }
  lemma ServerNamesDistinct() ensures Distinct(ServerNames()) { }
  lemma FeatureNamesDistinct() ensures Distinct(FeatureNames()) { }
  lemma GeneralModerationDisjoint() ensures Disjoint(GeneralNames(), ModerationNames()) { }
  lemma GeneralServerDisjoint() ensures Disjoint(GeneralNames(), ServerNames()) { }
  lemma GeneralFeatureDisjoint() ensures Disjoint(GeneralNames(), FeatureNames()) { }
  lemma ModerationServerDisjoint() ensures Disjoint(ModerationNames(), ServerNames()) { }
  lemma ModerationFeatureDisjoint() ensures Disjoint(ModerationNames(), FeatureNames()) { }
  lemma ServerFeatureDisjoint() ensures Disjoint(ServerNames(), FeatureNames()) { }

  lemma RegisteredNamesDistinct()
    ensures Distinct(RegisteredNames())
  {
    var v, m, s, f := GeneralNames(), ModerationNames(), ServerNames(), FeatureNames();
    GeneralNamesDistinct();
    ModerationNamesDistinct();
    ServerNamesDistinct();
    FeatureNamesDistinct();
    GeneralModerationDisjoint();
    GeneralServerDisjoint();
    GeneralFeatureDisjoint();
    ModerationServerDisjoint();
    ModerationFeatureDisjoint();
    ServerFeatureDisjoint();
    DistinctAppend(v, m);
    DisjointAppend(v, m, s);
    DistinctAppend(v + m, s);
    DisjointAppend(v, m, f);
    DisjointAppend(v + m, s, f);
    DistinctAppend(v + m + s, f);
  }

  predicate HasNoCapitals(s: string) {
    forall k :: 0 <= k < |s| ==> !('A' <= s[k] <= 'Z')
  }

  predicate AllLower(names: seq<string>) {
    forall i :: 0 <= i < |names| ==> HasNoCapitals(names[i])
  }

  lemma GeneralNamesLower() ensures AllLower(GeneralNames()) { }
  lemma ModerationNamesLower() ensures AllLower(ModerationNames()) { }
  lemma ServerNamesLower() ensures AllLower(ServerNames()) { }
  lemma FeatureNamesLower() ensures AllLower(FeatureNames()) { }

  lemma AllLowerAppend(a: seq<string>, b: seq<string>)
    requires AllLower(a) && AllLower(b)
    ensures AllLower(a + b)
  {
  }

  lemma RegisteredNamesLower()
    ensures AllLower(RegisteredNames())
  {
    GeneralNamesLower();
    ModerationNamesLower();
    ServerNamesLower();
    FeatureNamesLower();
    AllLowerAppend(GeneralNames(), ModerationNames());
    AllLowerAppend(GeneralNames() + ModerationNames(), ServerNames());
    AllLowerAppend(GeneralNames() + ModerationNames() + ServerNames(), FeatureNames());
  }

  lemma LowerWithoutCapitals(s: string)
    requires HasNoCapitals(s)
    ensures Lower(s) == s
  {
  }

  /** No two entries of `command_list` share a name, so no entry is overwritten. */
  lemma CommandNamesDistinct()
    ensures NamesDistinct(CommandList())
  {
    CommandListNames();
    RegisteredNamesDistinct();
    DistinctNames(CommandList());
  }

  lemma DistinctNames(list: seq<Command>)
    requires Distinct(NamesOf(list))
    ensures NamesDistinct(list)
  {
  }

  /** Every registered name is already lower case, so lowering the typed name can reach it. */
  lemma CommandNamesLower()
    ensures forall i :: 0 <= i < |CommandList()| ==> Lower(CommandList()[i].name) == CommandList()[i].name
  {
    CommandListNames();
    RegisteredNamesLower();
    LowerNames(CommandList());
  }

  lemma LowerNames(list: seq<Command>)
    requires AllLower(NamesOf(list))
    ensures forall i :: 0 <= i < |list| ==> Lower(list[i].name) == list[i].name
  {
  }

  /** `commands[command.lower()]`, `None` for the `KeyError` of an unknown name. */
  function Lookup(commands: map<string, Command>, command: string): (r: Option<Command>)
    ensures r.Some? <==> Lower(command) in commands
    ensures r.Some? ==> r.value == commands[Lower(command)]
  {
    var key := Lower(command);
    if key in commands then Some(commands[key]) else None
  }

  /** Every casing of an entry's name finds that entry in the registry built from `command_list`. */
  lemma LookupFindsEntry(command: string, i: nat)
    requires i < |CommandList()| && Lower(command) == CommandList()[i].name
    ensures Lookup(Register(CommandList()), command) == Some(CommandList()[i])
  {
    CommandNamesDistinct();
    RegisterDistinct(CommandList(), i);
  }

  /** A typed name finds a command exactly when its lower-cased form is the name of an entry. */
  lemma LookupFindsName(list: seq<Command>, command: string)
    ensures Lookup(Register(list), command).Some? <==> Lower(command) in NamesOf(list)
  {
  }

  /** Against `command_list`: the typed name must lower-case to one of the registered names. */
  lemma LookupRegistered(command: string)
    ensures Lookup(Register(CommandList()), command).Some? <==> Lower(command) in RegisteredNames()
  {
    LookupFindsName(CommandList(), command);
    CommandListNames();
  }

  /** Two spellings with the same lower-case form find the same command. */
  lemma LookupIgnoresCase(commands: map<string, Command>, a: string, b: string)
    requires Lower(a) == Lower(b)
    ensures Lookup(commands, a) == Lookup(commands, b)
  {
  }

  /**
   * `hasattr(command, 'admin') in (connection.admin, False)`: a command is
   * listed unless it carries the admin marker and the caller is no admin.
   */
  predicate Visible(c: Command, isAdmin: bool) {
    !c.admin || isAdmin
  }

  /** The names `help` lists, in `command_list` order. */
  function VisibleNames(list: seq<Command>, isAdmin: bool): seq<string> {
    if |list| == 0 then []
    else (if Visible(list[0], isAdmin) then [list[0].name] else []) + VisibleNames(list[1..], isAdmin)
  }

  /** A name is listed exactly when some entry visible to the caller carries it. */
  lemma {:induction false} VisibleNamesMembers(list: seq<Command>, isAdmin: bool)
    ensures |VisibleNames(list, isAdmin)| <= |list|
    ensures forall n :: n in VisibleNames(list, isAdmin) <==>
      exists i :: 0 <= i < |list| && list[i].name == n && Visible(list[i], isAdmin)
    decreases |list|
  {
    if |list| > 0 {
      var rest := VisibleNames(list[1..], isAdmin);
      VisibleNamesMembers(list[1..], isAdmin);
      forall n | n in rest
        ensures exists i :: 1 <= i < |list| && list[i].name == n && Visible(list[i], isAdmin)
      {
        var i :| 0 <= i < |list[1..]| && list[1..][i].name == n && Visible(list[1..][i], isAdmin);
        assert list[i + 1] == list[1..][i];
      }
      forall n | exists i :: 0 <= i < |list| && list[i].name == n && Visible(list[i], isAdmin)
        ensures n in VisibleNames(list, isAdmin)
      {
        var i :| 0 <= i < |list| && list[i].name == n && Visible(list[i], isAdmin);
        if i > 0 {
          assert list[1..][i - 1] == list[i];
        }
      }
    }
  }

  /** The listing keeps registry order: listing a concatenation concatenates the listings. */
  lemma {:induction false} VisibleNamesAppend(a: seq<Command>, b: seq<Command>, isAdmin: bool)
    ensures VisibleNames(a + b, isAdmin) == VisibleNames(a, isAdmin) + VisibleNames(b, isAdmin)
    decreases |a|
  {
    if |a| > 0 {
      assert (a + b)[1..] == a[1..] + b;
      VisibleNamesAppend(a[1..], b, isAdmin);
    } else {
      assert a + b == b;
    }
  }

  /** An admin is shown every registered name, in order. */
  lemma {:induction false} AdminSeesAll(list: seq<Command>)
    ensures VisibleNames(list, true) == NamesOf(list)
    decreases |list|
  {
    if |list| > 0 {
      AdminSeesAll(list[1..]);
      assert NamesOf(list) == [list[0].name] + NamesOf(list[1..]);
    }
  }

  /**
   * With distinct names, a caller without admin rights sees an entry's name
   * exactly when the entry carries no admin marker.
   */
  lemma HiddenExactlyWhenGated(list: seq<Command>, i: nat)
    requires NamesDistinct(list) && i < |list|
    ensures list[i].name in VisibleNames(list, false) <==> !list[i].admin
  {
    VisibleNamesMembers(list, false);
    if list[i].name in VisibleNames(list, false) {
      var k :| 0 <= k < |list| && list[k].name == list[i].name && Visible(list[k], false);
      assert k == i;
    }
  }

  /** `help` for a non-admin lists exactly the entries of `command_list` without the marker. */
  lemma NonAdminListing(i: nat)
    requires i < |CommandList()|
    ensures CommandList()[i].name in VisibleNames(CommandList(), false) <==> !CommandList()[i].admin
  {
    CommandNamesDistinct();
    HiddenExactlyWhenGated(CommandList(), i);
  }
}
