/** A guild member as the user commands see it. The member lives on the
    community service; the commands hold a handle to it for one request. */
module Members {
  import opened Wrappers

  /** A role handle: its identity and the mention text Discord renders for it. */
  datatype Role = Role(id: nat, mention: string)

  /** The four guild permission flags the commands' gates read. */
  datatype Permissions = Permissions(
    manageRoles: bool,
    manageNicknames: bool,
    muteMembers: bool,
    deafenMembers: bool)

  /** Whether the member is still in the guild, and if not, how it left. */
  datatype Standing = InGuild | Kicked(reason: string) | Banned(pruneDays: int, reason: string)

  /** A snapshot of everything the commands read or change on a member. */
  datatype MemberState = MemberState(
    id: nat,
    mention: string,
    permissions: Permissions,
    roles: set<Role>,
    nickname: Option<string>,
    muted: bool,
    deafened: bool,
    standing: Standing)

  /** The member handle (`SocketGuildUser`). Each mutating method stands for one
      external call that completed; a call that failed is never applied. */
  class Member {
    const id: nat
    const mention: string
    const permissions: Permissions
    var roles: set<Role>
    var nickname: Option<string>
    var muted: bool
    var deafened: bool
    var standing: Standing

    function State(): MemberState
      reads this
    {
      MemberState(id, mention, permissions, roles, nickname, muted, deafened, standing)
    }

    constructor (s: MemberState)
      ensures State() == s
    {
      id, mention, permissions := s.id, s.mention, s.permissions;
      roles, nickname, muted, deafened, standing := s.roles, s.nickname, s.muted, s.deafened, s.standing;
    }

    /** `RemoveRoleAsync`, completed. */
    method RemoveRole(role: Role)
      modifies this
      ensures State() == old(State()).(roles := old(roles) - {role})
    {
      roles := roles - {role};
    }

    /** `AddRoleAsync`, completed. */
    method AddRole(role: Role)
      modifies this
      ensures State() == old(State()).(roles := old(roles) + {role})
    {
      roles := roles + {role};
    }

    /** `ModifyAsync(x => x.Nickname = nick)`, completed. */
    method SetNickname(nick: string)
      modifies this
      ensures State() == old(State()).(nickname := Some(nick))
    {
      nickname := Some(nick);
    }

    /** `ModifyAsync(x => x.Mute = value)`, completed. */
    method SetMute(value: bool)
      modifies this
      ensures State() == old(State()).(muted := value)
    {
      muted := value;
    }

    /** `ModifyAsync(x => x.Deaf = value)`, completed. */
    method SetDeaf(value: bool)
      modifies this
      ensures State() == old(State()).(deafened := value)
    {
      deafened := value;
    }

    /** `KickAsync(reason)`, completed. */
    method Kick(reason: string)
      modifies this
      ensures State() == old(State()).(standing := Kicked(reason))
    {
      standing := Kicked(reason);
    }

    /** `BanAsync(days, reason)`, completed; `days` is the message-history purge window. */
    method Ban(days: int, reason: string)
      requires 0 <= days <= 7
      modifies this
      ensures State() == old(State()).(standing := Banned(days, reason))
    {
      standing := Banned(days, reason);
    }
  }
}
