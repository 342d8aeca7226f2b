/** What a user command sends back, and the fixed texts it uses. */
module Replies {
  import opened Wrappers
  import opened Text
  import opened Members

  /** The profile renderers of `UserTools` (their output is not part of this model). */
  datatype Renderer = ProfileEmbed | UserProfileEmbed | GuildProfileEmbed | AllProfileEmbed

  /** A field value: literal text (a mention, a placeholder, a quoted reason), or the role listing `UserTools.FormatRoles` renders. */
  datatype FieldValue = Literal(text: string) | RoleListing(roles: set<Role>)

  datatype Field = Field(name: string, value: FieldValue)

  /** The one outcome of an invocation. */
  datatype Reply =
    | Silent                  // returned without responding
    | Failure(title: string)  // ephemeral, coloured `Colors.Offline`, a title and nothing else
    | Embed(renderer: Renderer, subject: nat, field: Option<Field>)  // a profile of member `subject`, with at most one added field

  const DefaultReason := "There is no reason."

  const RoleRemoved := "Role Removed"
  const RoleAdded := "Role Added"
  const NicknameField := "Nickname"
  const NicknameSet := "Nickname Set"
  const UndefinedNickname := "`Undefined`"
  const Unmuted := "Un-muted"
  const Muted := "Muted"
  const Undeafened := "Un-deafened"
  const Deafened := "Deafened"
  const KickedField := "Kicked"
  const BannedField := "Banned"

  const RemoveRoleError := "There was an error removing the role from the user."
  const AddRoleError := "There was an error adding the role to the user."
  const NicknameError := "There was an error setting the user's nickname."
  const UnmuteError := "There was an error un-muting the user."
  const MuteError := "There was an error muting the user."
  const UndeafenError := "There was an error un-deafening the user."
  const DeafenError := "There was an error deafening the user."
  const KickError := "There was an error kicking the user."
  const BanError := "There was an error banning the user."

  /** A reason wrapped in triple backticks, as the kick and ban replies show it. */
  function Quoted(reason: string): string
  {
    "```" + reason + "```"
  }

  /** The name of the role-listing field: `Roles [n]`. */
  function RolesFieldName(count: nat): string
  {
    "Roles [" + DecimalString(count) + "]"
  }

  /** The count in a `Roles [n]` field name is exactly `n`: the digits between
      the brackets read back as the role count. */
  lemma RolesFieldNameCount(count: nat)
    ensures var name := RolesFieldName(count);
      |name| >= 9 && name[..7] == "Roles [" && name[|name| - 1] == ']'
      && AllDigits(name[7..|name| - 1]) && ParseDecimal(name[7..|name| - 1]) == count
  {
    var name := RolesFieldName(count);
    assert name[7..|name| - 1] == DecimalString(count);
    ParseDecimalString(count);
  }
}
