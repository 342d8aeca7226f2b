# Penile.NET `user` commands, modelled in Dafny

This project models the `user` slash-command group of the Penile.NET Discord bot
(`UserModule`): `display`, `roles`, `nick`, `mute`, `deafen`, `kick` and `ban`.
Each handler runs the same steps:

1. It resolves a target member.
2. It may take a query branch that changes nothing.
3. Otherwise it passes a permission gate that can return without answering.
4. It makes one external call that changes the member and may fail.
5. It answers exactly once: nothing, an ephemeral failure with a fixed title, or a
   profile embed with at most one added field. This holds when the reply itself is
   delivered; see "## Left out".

The model keeps the handlers' behaviour as written, including these quirks:

- **The gate reads the target.** Every gate reads the resolved target's
  `GuildPermissions`, not the invoker's.
- **The gate is inverted.** Holding the permission is what silences the command.
- **Only "turn on" is gated.** Un-muting and un-deafening are never gated.
- **`deafen` never deafens.** Both of its branches write `Deaf = false`, so a
  "Deafened" reply leaves the member as it was (see Findings).

Files and modules:

- `wrappers.dfy` (`Wrappers`): `Option`, standing in for C#'s nullable parameters.
- `text.dfy` (`Text`): `char.IsWhiteSpace` and `string.IsNullOrWhiteSpace`, and the
  decimal text of an `int` as C# interpolation writes it.
- `members.dfy` (`Members`): the member snapshot `MemberState` and the mutable
  member handle `Member`. Each mutating method of `Member` is one external call
  that completed.
- `replies.dfy` (`Replies`): the `Reply` datatype (`Silent | Failure(title) |
  Embed(renderer, subject, field)`) and every title and field name the handlers use.
- `commands.dfy` (`Commands`): the decision table, one pure function per command.
  Each maps the target's state and the external call's success to the reply and
  the new state. This is the specification the handlers are proved against.
- `router.dfy` (`Router`): one dispatcher over all commands with the properties
  they share, target resolution, and `Run`, which chains invocations on one
  member. Induction over `Run` gives the properties of command sequences.
- `user_module.dfy` (`Interaction`): the class `UserModule` with one imperative
  method per handler. Each method has the handler's early returns and its
  `ensures` ties the reply and the new member state to the decision table.

Whether an external call completes is a boolean parameter `callOk`. The model
assumes the external side effect is atomic: a failed call changes nothing.

`UserTools.GetUser` is not part of this model. Both `UserModule.GetUser` and
`Router.Resolve` ASSUME it returns the explicit target when one is given and the
invoker otherwise. This is an assumption, not a verified fact.

## Model

| member | source | states |
|---|---|---|
| `Text.IsWhiteSpace` | Source/Modules/InformationModules/UserModule.cs:127 | No contract. The characters .NET's `char.IsWhiteSpace` accepts: U+0009 to U+000D, U+0020, U+0085, U+00A0, U+1680, U+2000 to U+200A, U+2028, U+2029, U+202F, U+205F and U+3000. |
| `Text.IsNullOrWhiteSpace` | Source/Modules/InformationModules/UserModule.cs:127 | No contract. `string.IsNullOrWhiteSpace`: the nickname is absent, or every character of it is white space (the empty string included). |
| `Replies.Quoted` | Source/Modules/InformationModules/UserModule.cs:317 | No contract. The reason wrapped in triple backticks, as the "Kicked" field (and the "Banned" field at line 352) show it. |
| `Replies.RolesFieldName` | Source/Modules/InformationModules/UserModule.cs:58 | No contract. The field name `Roles [n]` with n written in decimal; `Replies.RolesFieldNameCount` states its properties. |
| `Router.GateHeld` | Source/Modules/InformationModules/UserModule.cs:63-65 | No contract. The gate that silences a command: the target holds ManageRoles for a role toggle (line 63), ManageNicknames for a nickname set (line 135), MuteMembers for muting an un-muted target (line 197), DeafenMembers for deafening an un-deafened target (line 259). No other command or branch is gated. |
| `Router.Resolve` | Source/Modules/InformationModules/UserModule.cs:18 | Assumption, no contract. `UserTools.GetUser` is not part of this model; assumed to return the explicit target when one is given, else the invoker. |
| `Interaction.UserModule.GetUser` | Source/Modules/InformationModules/UserModule.cs:51 | Assumption, no contract. The same assumed resolver as `Router.Resolve`, on member handles, used by every handler (lines 18, 51, 119, 170, 232, 295, 330). |
| `Commands.RendererFor` | Source/Modules/InformationModules/UserModule.cs:20-45 | Option 0 selects the user profile, 1 the guild profile, 2 the full profile. Any other value, and no value, selects the default profile. Each in both directions. |
| `Commands.DisplayStep` | Source/Modules/InformationModules/UserModule.cs:12-46 | `display` answers with the target's profile in the chosen renderer. It adds no field and changes nothing. |
| `Interaction.UserModule.Display` | Source/Modules/InformationModules/UserModule.cs:13-46 | The handler answers with the resolved target's profile in `RendererFor(option)`, with no field. It has no modifies clause, so it changes no member. |
| `Commands.RolesStep` | Source/Modules/InformationModules/UserModule.cs:49-115 | Without a role: nothing changes, and the one field is `Roles [n]` listing the target's roles. With a role: silent exactly when the target holds ManageRoles. A failed call changes nothing and gives the remove or add error title. A completed call flips membership of that one role only, and the field is "Role Removed" or "Role Added" with the role's mention. |
| `Commands.RolesToggleTwice` | Source/Modules/InformationModules/UserModule.cs:67-109 | Two completed toggles of one role on a target without ManageRoles restore the original member. One reports "Role Added" and the other "Role Removed". |
| `Text.DecimalString` | Source/Modules/InformationModules/UserModule.cs:58 | The interpolated count is a non-empty string of decimal digits with no leading zero except for 0. |
| `Text.ParseDecimalString` | Source/Modules/InformationModules/UserModule.cs:58 | Reading the decimal text of n back gives n. |
| `Replies.RolesFieldNameCount` | Source/Modules/InformationModules/UserModule.cs:55-61 | The field name is `Roles [`, then digits, then `]`, and the digits read back as exactly the role count. |
| `Commands.NickStep` | Source/Modules/InformationModules/UserModule.cs:117-166 | Without a nickname: nothing changes. The "Nickname" field shows "`Undefined`" when the nickname is absent or white space only, else the target's mention. With a nickname: silent exactly when the target holds ManageNicknames. A failed call changes nothing and gives the nickname error. A completed call sets the nickname to the argument and nothing else, with field "Nickname Set". |
| `Commands.MuteStep` | Source/Modules/InformationModules/UserModule.cs:168-228 | Only the mute flag can change. The reply is silent exactly when the target is not muted and holds MuteMembers, so un-muting is never gated. A field is added exactly when the call completes past the gate. The flag then flips and the field is "Un-muted" or "Muted". A failure gives the matching title and changes nothing. |
| `Commands.MuteTwice` | Source/Modules/InformationModules/UserModule.cs:173-223 | With no MuteMembers on the target, two completed calls restore the member. With MuteMembers, a muted target ends un-muted: the second call is silenced. |
| `Commands.DeafenStep` | Source/Modules/InformationModules/UserModule.cs:230-290 | Only the deafened flag can change, and never to true. The reply is silent exactly when the target is not deafened and holds DeafenMembers. A field is added exactly when the call completes past the gate. It reads "Un-deafened" or "Deafened", and the member is un-deafened afterwards in both cases. |
| `Commands.DeafenDoesNotToggle` | Source/Modules/InformationModules/UserModule.cs:258-284 | Two completed calls on a deafened target leave it un-deafened. On a non-deafened target without DeafenMembers, a completed call replies "Deafened" and leaves the member unchanged. |
| `Commands.IntendedDeafenStep` | Source/Modules/InformationModules/UserModule.cs:230-290 | The corrected handler: a field means the flag flipped, and the field names the new state. |
| `Commands.IntendedDeafenTwice` | Source/Modules/InformationModules/UserModule.cs:230-290 | With the corrected write, two completed calls on a target without DeafenMembers restore the member. |
| `Commands.KickStep` | Source/Modules/InformationModules/UserModule.cs:292-321 | Never silent, because there is no in-handler gate. A failed call changes nothing and gives "There was an error kicking the user.". A completed call only changes the member's standing to kicked with the reason, which defaults to "There is no reason.". The field is "Kicked" with the reason in triple backticks. |
| `Commands.BanStep` | Source/Modules/InformationModules/UserModule.cs:323-356 | For days in 0..7, 0 when omitted: never silent. A failed call changes nothing and gives the banning error. A completed call only changes the standing to banned with those days and the reason, which defaults to "There is no reason.". The field is "Banned" with the reason in triple backticks. |
| `Router.Dispatch` | Source/Modules/InformationModules/UserModule.cs:12-356 | For every command: silent exactly when the target's gate permission holds. An ephemeral failure exactly when a non-query call failed past the gate. Only a profile reply comes with a change, and queries never change anything. The profile is the target's, with one outcome field except for `display`. Each command touches only its own part of the member: roles, nickname, mute flag, deafened flag or standing. Identity and permissions never change. Nothing ever sets deafened. |
| `Router.Handle` | Source/Modules/InformationModules/UserModule.cs:18-330 | Under the resolver assumption, the profile shown is the explicit target's when one is given, else the invoker's. This is the resolution every handler performs (lines 18, 51, 119, 170, 232, 295, 330). |
| `Router.GateReadsTarget` | Source/Modules/InformationModules/UserModule.cs:63-65 | With an explicit target, the invoker makes no difference to the outcome. The command is silenced exactly when the target holds the gate permission. |
| `Router.RunNeverDeafens` | Source/Modules/InformationModules/UserModule.cs:264-266 | No sequence of invocations deafens a member that was not deafened. |
| `Router.RunFailedCallsChangeNothing` | Source/Modules/InformationModules/UserModule.cs:70-341 | If every external call fails, a sequence of invocations leaves the member unchanged. This covers every catch block (lines 70, 91, 143, 178, 205, 240, 267, 299, 334). |
| `Router.RunQueriesChangeNothing` | Source/Modules/InformationModules/UserModule.cs:122-133 | A sequence of query invocations leaves the member unchanged. |
| `Router.RunChangesOnlyOwnedParts` | Source/Modules/InformationModules/UserModule.cs:9-357 | Across any sequence of invocations, identity never changes, and permissions never change by construction (the model keeps them constant). Roles, nickname, mute flag, deafened flag and standing each change only if some invocation is the command that owns them. |
| `Members.Member.RemoveRole` | Source/Modules/InformationModules/UserModule.cs:69 | A completed removal takes the role out of the role set and changes nothing else. |
| `Members.Member.AddRole` | Source/Modules/InformationModules/UserModule.cs:90 | A completed addition puts the role into the role set and changes nothing else. |
| `Members.Member.SetNickname` | Source/Modules/InformationModules/UserModule.cs:140-142 | The nickname becomes the given text and nothing else changes. |
| `Members.Member.SetMute` | Source/Modules/InformationModules/UserModule.cs:175-177 | The mute flag becomes the given value and nothing else changes. |
| `Members.Member.SetDeaf` | Source/Modules/InformationModules/UserModule.cs:237-239 | The deafened flag becomes the given value and nothing else changes. |
| `Members.Member.Kick` | Source/Modules/InformationModules/UserModule.cs:298 | The standing becomes kicked with the reason and nothing else changes. |
| `Members.Member.Ban` | Source/Modules/InformationModules/UserModule.cs:333 | The standing becomes banned with the days and reason and nothing else changes. |
| `Interaction.UserModule.Roles` | Source/Modules/InformationModules/UserModule.cs:50-115 | The reply and the target's new state are exactly those of `RolesStep` on the target's old state. |
| `Interaction.UserModule.Nick` | Source/Modules/InformationModules/UserModule.cs:118-166 | The reply and the target's new state are exactly those of `NickStep`. |
| `Interaction.UserModule.Mute` | Source/Modules/InformationModules/UserModule.cs:169-228 | The reply and the target's new state are exactly those of `MuteStep`. |
| `Interaction.UserModule.Deafen` | Source/Modules/InformationModules/UserModule.cs:231-290 | The reply and the target's new state are exactly those of `DeafenStep`, as written. |
| `Interaction.UserModule.Kick` | Source/Modules/InformationModules/UserModule.cs:294-321 | The reply and the target's new state are exactly those of `KickStep`. |
| `Interaction.UserModule.Ban` | Source/Modules/InformationModules/UserModule.cs:325-356 | For days in 0..7 (0 when omitted), the reply and the target's new state are exactly those of `BanStep`. |

## Left out

- The member calls (`AddRoleAsync`, `RemoveRoleAsync`, `ModifyAsync`, `KickAsync`, `BanAsync`) are foreign asynchronous network calls. Each is a boolean success parameter plus a setter that applies a completed call. The model assumes no partial effect on failure.
- `RespondAsync` is assumed always to deliver: a reply is only the handler's return value. In the code nothing catches an exception from it. A reply that fails after a completed member call (lines 112, 163, 225, 287, 311, 346) leaves the member changed with no answer. One that fails inside a catch block (e.g. line 71) escapes the handler. The model captures neither case.
- `UserTools.GetUser`, `ProfileEmbed`, `UserProfileEmbed`, `GuildProfileEmbed`, `AllProfileEmbed` and `FormatRoles` are not part of this model, nor is `GeneralTools.GetSorted`. Renderers are named, not rendered. A role listing is kept as the set of roles. The count in `Roles [n]` is taken to be the size of the role set, which assumes `GetSorted` keeps every role.
- Embed colour (`Colors.Offline`), the inline flag on the kick and ban fields, and the profile text are display-only. A `Failure` reply stands for the ephemeral, offline-coloured embed that has only a title.
- Permissions are constants of the model, across any sequence of invocations and not only within one call. In Discord they derive from the member's roles, so the `roles` command itself can change them (adding a role that grants ManageRoles, line 90). Two proved statements rest on this abstraction. The permissions clause of `Router.RunChangesOnlyOwnedParts` holds by construction. In `Commands.RolesToggleTwice`, the second toggle passes the gate at line 63 only because the first toggle cannot grant ManageRoles.
- Kicking and banning are recorded as the member's standing. Removal from the guild, the rejoin block and the purge of message history happen at the service.
- The registration attributes (`[SlashCommand]`, `[Choice]`, `[DefaultMemberPermissions]`, `[MinValue]`/`[MaxValue]`) are enforced by the framework. Only the ban's `0 <= days <= 7` enters the model, as a precondition. The declared KickMembers and BanMembers defaults are not modelled.
- `Router.Run` does not stop at a kicked or banned member: `Dispatch` ignores `standing`, so later invocations in the sequence still apply. In Discord such a user can no longer be resolved as a guild member, so the sequence could not happen. The `Run` lemmas are safety properties and hold either way.
- Concurrency between invocations and races at the service are out of scope. The handlers share no state.
- Mentions are opaque text carried by the member and role handles. Discord's mention format is not modelled.

## Findings

The handlers in `Interaction.UserModule` keep the code as written, and so does
`Router`. The corrected definition is modelled beside it so that the intended
behaviour is proved as well.

| source | as written | input that shows it | evidently intended | confidence | as-written member | corrected member |
|---|---|---|---|---|---|---|
| Source/Modules/InformationModules/UserModule.cs:264-266 | the branch that reports "Deafened" writes `x.Deaf = false` | a target that is not deafened and lacks DeafenMembers, with the call completing: the reply says "Deafened" and the member stays un-deafened | `x.Deaf = true`, as the command's description ("Otherwise, deafen.") and its reply say | high (not executed) | `Commands.DeafenDoesNotToggle` | `Commands.IntendedDeafenTwice` |
