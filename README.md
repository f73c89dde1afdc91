# pyspades chat commands in Dafny

A model of the chat-command engine of the pyspades game server
(`feature_server/commands.py`). A player types `/name arg arg ...` and the
server looks up the command, checks admin rights for gated commands, binds the
arguments to the handler, runs it, and turns the exceptions it raises into
fixed replies.

The model is split into these modules:

- `Text` (`text.dfy`): the Python 2 string operations the engine relies on.
  These are ASCII `lower`/`upper`, `count` used as a substring test, `' '.join`,
  `int(s)` and `'%s' % n`.
- `State` (`state.dfy`): the server (`Protocol`), the two `Team`s and the
  player `Connection`s as classes with the fields the handlers update.
  Effects on collaborators that are not modelled (chat, IRC, kicking, moving
  players, external game features) are appended to `Protocol.events`, in the
  order the handler performs them.
- `Resolve` (`resolve.dfy`): `get_player`, `get_team` and `join_arguments`.
  These are pure functions, and `None` stands for the exception the source
  raises.
- `Registry` (`registry.dfy`): covers the following.
  - The handlers and their Python arity (required and optional positional
    parameters, `*arg` or not).
  - The `admin` and `name` decorators, applied to command descriptors.
  - `command_list` and the loop that fills `commands`.
  - The case-insensitive lookup and the name filter of `help`.
- `Session`, `AdminHandlers`, `Delegating` (`session.dfy`,
  `admin_handlers.dfy`, `delegating.dfy`): one method per handler body,
  parameterised where the source's bodies differ only in a flag or a constant
  (`Toggle` for the three toggles, `SetLock` for lock/unlock, `SetMute` for
  mute/unmute, `Remove` for kick/ban, `Vote` for y/n). Each returns an `Outcome`, either `Returned(reply)` or `Raised(failure)`, and
  changes only the fields its `modifies` clause names. Each also ensures
  `State.Untouched` for the group of fields it writes.
- `Dispatch` (`dispatch.dfy`): `handle_command`, which covers the following.
  - The lookup.
  - The `admin` gate, which answers a non-admin with
    `No administrator rights!` whatever the argument count.
  - The arity check that stands for Python's `TypeError`.
  - Running the body. `Dispatch.Ran` gives, for every handler, the outcome
    and new state its body produces, and the dispatch promises it. Each case
    of `Ran` also names the one group of fields that handler may write
    (`State.Untouched`); every other field of the caller, of the roster
    players and of the server keeps its value.
  - Translating `TypeError`, `InvalidPlayer`, `InvalidTeam` and `ValueError`
    into their replies.

The gate is modelled as written. The wrapper calls a gated handler without
`return`, so whatever an admin-only handler returns is replaced by `None`.
An administrator's `/tweak rows` or a `/setbalance x` with a bad value
therefore gets no reply. `Dispatch.Respond` states this, and
`Dispatch.TweakQueryUnanswered` shows it on one input.

## Model

| member | source | states |
|---|---|---|
| Text.OccursIff | feature_server/commands.py:54 | `name.count(token)` is non-zero exactly when some slice of the name equals the token, so the empty token matches every name |
| Text.ParseIntText | feature_server/commands.py:374 | `int('%s' % n) == n` for every integer, so a value printed by `tweak` parses back to itself |
| Resolve.FirstMatch | feature_server/commands.py:53-55 | the scan returns the first roster index whose player matches, none before it matches, and none is returned only if no player matches |
| Resolve.GetPlayer | feature_server/commands.py:43-58 | the result is always a roster member. For `#n` it is found exactly when `n` parses and a player has id `n`, and that player has id `n`. Otherwise an exact name wins. Otherwise it is found exactly when some lowered name contains the lowered token, and it is the first such player in roster order |
| Resolve.GetTeam | feature_server/commands.py:60-66 | blue exactly when the lowered token is `blue`, green exactly when it is `green`, and `InvalidTeam` for every other token |
| Resolve.JoinArguments | feature_server/commands.py:68-71 | the default for no arguments; otherwise the arguments joined by spaces, which is the argument itself when there is only one |
| Registry.ArityOf | feature_server/commands.py:73-356 | each handler's positional parameters after the connection, as its `def` line writes them: no handler has more than one required or two named parameters, and the ones with `*arg` have no defaults |
| Registry.AcceptsBinds | feature_server/commands.py:437 | `Accepts` holds exactly when Python binds the call: the required parameters take the first arguments, the optional ones the next, and any left over go to `*arg`. The call fails when a required parameter gets no value or leftovers have nowhere to go |
| Registry.Admin | feature_server/commands.py:28-35 | the wrapper keeps the handler and its name and adds the admin marker |
| Registry.Name | feature_server/commands.py:37-41 | the decorator changes the name only |
| Registry.BuildRegistry | feature_server/commands.py:425-428 | the loop produces the dictionary `Register(list)` of the insertions in order, and a name is a key exactly when some entry carries it |
| Registry.RegisterHolds | feature_server/commands.py:425-428 | a name is registered exactly when some entry carries it, and it maps to the last such entry, so a later duplicate silently overwrites an earlier one |
| Registry.RegisterDistinct | feature_server/commands.py:425-428 | with distinct names, every entry is found under its own name |
| Registry.CommandListNames | feature_server/commands.py:388-423 | the names after the `name` decorators are the 34 listed names, in order |
| Registry.CommandNamesDistinct | feature_server/commands.py:388-428 | no two entries of `command_list` share a name, so no entry is overwritten |
| Registry.CommandNamesLower | feature_server/commands.py:388-423 | every registered name is already lower case |
| Registry.Lookup | feature_server/commands.py:431-435 | a command is found exactly when its lowered form is a key, and it is that key's entry |
| Registry.LookupFindsEntry | feature_server/commands.py:430-435 | every casing of an entry's name dispatches to that entry |
| Registry.LookupRegistered | feature_server/commands.py:430-435 | a typed name finds a command exactly when it lowers to one of the 34 registered names |
| Registry.LookupFindsName | feature_server/commands.py:425-435 | for any command list, lookup succeeds exactly when the lowered name is one of the list's names |
| Registry.LookupIgnoresCase | feature_server/commands.py:431 | two spellings with the same lower-case form find the same command |
| Registry.VisibleNamesMembers | feature_server/commands.py:138-139 | a name is listed by `help` exactly when some entry visible to the caller carries it |
| Registry.VisibleNamesAppend | feature_server/commands.py:138-139 | the listing keeps registry order |
| Registry.AdminSeesAll | feature_server/commands.py:138-139 | an admin is shown every name, in order |
| Registry.HiddenExactlyWhenGated | feature_server/commands.py:138-139 | with distinct names, a non-admin sees an entry's name exactly when it carries no admin marker |
| Registry.NonAdminListing | feature_server/commands.py:131-140 | for `command_list`, a non-admin's `help` lists an entry exactly when it is not admin-only |
| Session.RetriesCountDown | feature_server/commands.py:152-155 | after `k >= 1` consecutive wrong passwords on a fresh connection, the counter reads `configured - k` |
| Session.KickedOnLastAttempt | feature_server/commands.py:152-158 | the counter reaches 0 on the `configured`-th wrong password and on no other, and never when `configured <= 0` |
| Session.Login | feature_server/commands.py:142-160 | a listed password sets `admin`, leaves the counter alone and announces it. A wrong one seeds or decrements the counter. At 0 the caller is kicked with `Ran out of login attempts`; otherwise the reply reports the tries left |
| Session.FollowRefusal | feature_server/commands.py:183-192 | the guards in order: no refusal exactly when the target is another player on the caller's team, not already followed, followable and below the follower limit; self is refused first |
| Session.Follow | feature_server/commands.py:168-197 | with no argument, the relation is cancelled and `respawn_time` reset, or a message is sent and nothing changes. With an argument, an unknown player raises; a refusal changes nothing; otherwise it sets `follow` and the follow respawn time and notifies the target |
| Session.NoFollow | feature_server/commands.py:199-205 | `followable` is negated, and followers are dropped exactly when it becomes false |
| Session.NoFollowTwice | feature_server/commands.py:199-205 | two calls restore `followable` and drop the followers exactly once |
| Session.Help | feature_server/commands.py:131-140 | configured help lines are sent; otherwise the reply is `Available commands: ` followed by the names in the command list that the caller may use, joined by `, ` |
| Session.Rules | feature_server/commands.py:125-129 | configured rules are sent, and there is never a reply |
| Session.Pm | feature_server/commands.py:162-166 | an unknown recipient raises and changes nothing. Otherwise the recipient gets `PM from <caller>: <message>`, `None` when there is no message, and the caller gets `PM sent to <name>` |
| Session.Streak | feature_server/commands.py:210-212 | the reply reports the current and best streak |
| AdminHandlers.Toggle | feature_server/commands.py:251-279 | exactly one flag is negated, the others are untouched, and the new value is announced on chat and IRC |
| AdminHandlers.ToggleTwice | feature_server/commands.py:251-279 | toggling twice restores every flag |
| AdminHandlers.SetBalance | feature_server/commands.py:238-249 | a non-integer is answered with the usage message and changes nothing; an integer is stored and announced |
| AdminHandlers.SetLock | feature_server/commands.py:214-228 | an unknown team raises `InvalidTeam` and changes nothing. Otherwise the named team's `locked` is set, the other team is untouched, and the change is announced |
| AdminHandlers.SetMute | feature_server/commands.py:281-293 | an unknown player raises and changes nothing. Otherwise only that player's `mute` is set, and the change is announced |
| AdminHandlers.Subject | feature_server/commands.py:323-324 | the subject of `god`/`switch` is the caller or a roster member |
| AdminHandlers.God | feature_server/commands.py:321-330 | the god flag of exactly the subject is negated, with the matching announcement; an unknown name raises and changes nothing |
| AdminHandlers.GodTwice | feature_server/commands.py:321-330 | two calls on the same argument restore every god flag |
| AdminHandlers.Switch | feature_server/commands.py:230-236 | the subject moves to the other team, is killed and is announced; no one else changes team; an unknown name raises and changes nothing |
| AdminHandlers.KeyOf | feature_server/commands.py:357-386 | a key is recognised only under its exact name |
| AdminHandlers.KeyNamesRoundTrip | feature_server/commands.py:357-386 | every key's name is recognised as that key |
| AdminHandlers.TweakIntegerRoundTrip | feature_server/commands.py:373-386 | setting an integer key succeeds exactly when the value parses as an integer, stores it, and changes no other tunable |
| AdminHandlers.TweakSetThenGet | feature_server/commands.py:357-386 | setting an integer key to `'%s' % n` and reading it back gives `'%s' % n` |
| AdminHandlers.TweakAirstrikesRoundTrip | feature_server/commands.py:355-386 | `airstrikes` is set to whether the value differs from `'0'`, and is read back as `True`/`False` |
| AdminHandlers.Tweak | feature_server/commands.py:355-386 | an unknown key does nothing. With no value it reads the key; with a value it stores the parsed value, or raises `ValueError` and changes nothing |
| Delegating.Remove | feature_server/commands.py:73-83 | kick/ban: an unknown player raises and nothing is done; otherwise that player is kicked or banned with the joined reason or `None` |
| Delegating.Say | feature_server/commands.py:85-89 | the words joined by spaces go to chat and IRC |
| Delegating.Kill | feature_server/commands.py:91-96 | the named player is killed and `<caller> killed <player>` is announced; an unknown name raises and changes nothing |
| Delegating.Heal | feature_server/commands.py:98-107 | the named player, or the caller, is refilled, with the matching announcement; an unknown name raises and changes nothing |
| Delegating.Votekick | feature_server/commands.py:109-111 | the target is resolved first, and the vote's result is the reply |
| Delegating.Vote | feature_server/commands.py:113-119 | `y`/`n` cast a vote, and there is no reply |
| Delegating.CancelVote | feature_server/commands.py:121-123 | the cancellation's result is the reply |
| Delegating.Teleport | feature_server/commands.py:295-308 | both names are resolved before anything moves. With one name the caller moves to that player; with two, the first moves to the second |
| Delegating.Goto | feature_server/commands.py:312-319 | the caller is moved, and the location is announced upper-cased |
| Delegating.Airstrike | feature_server/commands.py:207-208 | the airstrike's result is the reply |
| Delegating.ResetGame | feature_server/commands.py:332-336 | the game is reset, and the reset is announced with the caller's name |
| Delegating.Rollmap | feature_server/commands.py:338-345 | a rollback is started from the file over the whole map or the named block |
| Delegating.Rollback | feature_server/commands.py:347-349 | `rollmap` is called with no file name through its own gate, so its result is dropped |
| Delegating.RollbackCancel | feature_server/commands.py:351-353 | the cancellation's result is the reply |
| Dispatch.FailureTextIdentifies | feature_server/commands.py:438-445 | the four exception replies are pairwise different, so a reply identifies the exception |
| Dispatch.Settle | feature_server/commands.py:436-445 | a returned value passes through unchanged. A raised exception becomes a text different from `Invalid command` and `No administrator rights!` |
| Dispatch.Respond | feature_server/commands.py:32 | an admin-only handler's return becomes `None`, because the wrapper calls it without `return`; an ungated handler's is passed on; an exception from either is translated to its reply |
| Dispatch.TweakQueryUnanswered | feature_server/commands.py:32 | an administrator's `/tweak rows` produces no reply |
| Dispatch.RunBody | feature_server/commands.py:437 | running handler `h` on the bound arguments has exactly the effect `Dispatch.Ran` gives that handler: its outcome and its new state, per handler and per branch. The handler writes only its own group of fields; every other field of the caller, the roster and the server is unchanged. Every handler leaves the roster alone and only appends to the event log. A handler that raises has changed nothing, `InvalidTeam` comes only from `lock`/`unlock`, and `ValueError` only from `tweak` |
| Dispatch.RunPersonal | feature_server/commands.py:437 | for `help`, `rules`, `pm`, `streak`, `login`, `follow` and `nofollow`, the call has the effect `Dispatch.Ran` gives the handler |
| Dispatch.RunShared | feature_server/commands.py:437 | for every other handler, the call has the effect `Dispatch.Ran` gives the handler |
| Dispatch.HandleCommand | feature_server/commands.py:430-445 | the command is looked up in the registry built from the command list that `help` also lists. An unknown name gives `Invalid command`, a gated command and a non-admin give `No administrator rights!`, and a wrong argument count gives `Invalid number of arguments for <lowered name>`. None of these changes anything. Otherwise the entry's handler runs on the parameters with the effect `Dispatch.Ran` gives it, leaving every field outside its group unchanged, and the reply is its gated result or the translated exception |

## Left out

- `feature_server/map.py` is not part of this model. It is file-system and JSON loading and the terrain decoder, all I/O or library code.
- Chat, IRC, private messages, `send_lines`, kicking, banning, killing, refilling, moving players, dropping followers and resetting the game are recorded as events. What those collaborators do is not modelled.
- `votekick`, `y`/`n`, `cancel`, `airstrike`, `rollmap`, `rollback`, `rollbackcancel`: the external features they start or cancel are recorded as calls, and where the handler returns the feature's result, that result is the opaque reply `Forwarded(call)`.
- Delegating.Goto: `pyspades.common.coordinates` and the map height lookup are external. The location string is recorded unparsed, and a coordinate that fails to parse is not modelled.
- Delegating.Rollmap: the coordinate-to-block conversion is external, so the block is recorded as the argument text.
- Exceptions raised by those external collaborators are not modelled. So the path where `handle_command` lets an exception other than the four propagate cannot arise in the model.
- `player.get_followers()` is not part of this model. `State.Followers` stands in for it: the roster connections whose `follow` is the target.
- Session.NoFollow: dropping the followers is only recorded as a `DroppedFollowers` event. The followers' `follow` fields still point at the caller afterwards, so `State.Followers` and the "already following" guard of `Session.Follow` still see them.
- AdminHandlers.God, AdminHandlers.Switch: the announcement is appended to the caller's server. The source sends it through the subject's own `protocol`, which is the same server only if every roster connection belongs to the server that lists it. The model takes that as given, and `Protocol.Valid` does not state it.
- AdminHandlers.Tweak: `float(value)` and `'%s' % x` for the `time` key are floating-point conversions. They are parameters of the server (`parseFloat`, `floatText`), not definitions.
- Text.ParseInt: Python 2 `int()` details beyond optional surrounding whitespace, one sign and decimal digits are not modelled. This includes whitespace between the sign and the digits.
- AdminHandlers.SetBalance: `%r` is rendered as the value in single quotes, without Python's escaping of quotes and control characters.
- Keyword arguments (`**kw`) are not modelled, since chat commands pass only positional parameters.
- `State.Protocol`'s constructor picks fixed starting values for the flags and tunables, because the server configuration that supplies them is not part of this model.
