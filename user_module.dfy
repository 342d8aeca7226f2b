/** The `user` slash-command group as its handlers run it: resolve the target,
    take the query branch or pass the gate, make the one external call, and
    answer once. `callOk` stands for whether that call completes; a call that
    fails throws, and the handler's catch block answers with an ephemeral
    failure and returns. */
module Interaction {
  import opened Wrappers
  import opened Text
  import opened Members
  import opened Replies
  import opened Commands

  class UserModule {
    /** The member who invoked the command (`Context.User`). */
    const invoker: Member

    constructor (invoker: Member)
      ensures this.invoker == invoker
    {
      this.invoker := invoker;
    }

    /** `UserTools.GetUser` is not part of this model. Assumed: the explicit
        target when one is given, else the invoker. */
    function GetUser(user: Member?): Member
    {
      if user != null then user else invoker
    }

    /** `display`: a profile of the target chosen by option, and no change. */
    method Display(user: Member?, option: Option<int>) returns (reply: Reply)
      ensures reply.Embed? && reply.subject == GetUser(user).id && reply.field.None?
      ensures reply.renderer == RendererFor(option)
    {
      var u := GetUser(user);
      match option {
        case Some(0) => reply := Embed(UserProfileEmbed, u.id, None);
        case Some(1) => reply := Embed(GuildProfileEmbed, u.id, None);
        case Some(2) => reply := Embed(AllProfileEmbed, u.id, None);
        case _ => reply := Embed(ProfileEmbed, u.id, None);
      }
    }

    /** `roles`: list the target's roles, or toggle `role` on it. */
    method Roles(user: Member?, role: Option<Role>, callOk: bool) returns (reply: Reply)
      modifies GetUser(user)
      ensures Step(reply, GetUser(user).State()) == RolesStep(old(GetUser(user).State()), role, callOk)
    {
      var u := GetUser(user);
      var field: Option<Field>;
      match role {
        case None =>
          field := Some(Field(RolesFieldName(|u.roles|), RoleListing(u.roles)));
        case Some(rl) =>
          if u.permissions.manageRoles {
            return Silent;
          }
          if rl in u.roles {
            if !callOk {
              return Failure(RemoveRoleError);
            }
            u.RemoveRole(rl);
            field := Some(Field(RoleRemoved, Literal(rl.mention)));
          } else {
            if !callOk {
              return Failure(AddRoleError);
            }
            u.AddRole(rl);
            field := Some(Field(RoleAdded, Literal(rl.mention)));
          }
      }
      reply := Embed(ProfileEmbed, u.id, field);
    }

    /** `nick`: show whether the target has a nickname, or set it. */
    method Nick(user: Member?, nickname: Option<string>, callOk: bool) returns (reply: Reply)
      modifies GetUser(user)
      ensures Step(reply, GetUser(user).State()) == NickStep(old(GetUser(user).State()), nickname, callOk)
    {
      var u := GetUser(user);
      var field: Field;
      match nickname {
        case None =>
          field := Field(NicknameField, Literal(UndefinedNickname));
          if !IsNullOrWhiteSpace(u.nickname) {
            field := field.(value := Literal(u.mention));
          }
        case Some(nick) =>
          if u.permissions.manageNicknames {
            return Silent;
          }
          if !callOk {
            return Failure(NicknameError);
          }
          u.SetNickname(nick);
          field := Field(NicknameSet, Literal(u.mention));
      }
      reply := Embed(ProfileEmbed, u.id, Some(field));
    }

    /** `mute`: un-mute a muted target; otherwise, past the gate, mute it. */
    method Mute(user: Member?, callOk: bool) returns (reply: Reply)
      modifies GetUser(user)
      ensures Step(reply, GetUser(user).State()) == MuteStep(old(GetUser(user).State()), callOk)
    {
      var u := GetUser(user);
      var field: Field;
      if u.muted {
        if !callOk {
          return Failure(UnmuteError);
        }
        u.SetMute(false);
        field := Field(Unmuted, Literal(u.mention));
      } else {
        if u.permissions.muteMembers {
          return Silent;
        }
        if !callOk {
          return Failure(MuteError);
        }
        u.SetMute(true);
        field := Field(Muted, Literal(u.mention));
      }
      reply := Embed(ProfileEmbed, u.id, Some(field));
    }

    /** `deafen`, as written: both branches write `Deaf = false`. */
    method Deafen(user: Member?, callOk: bool) returns (reply: Reply)
      modifies GetUser(user)
      ensures Step(reply, GetUser(user).State()) == DeafenStep(old(GetUser(user).State()), callOk)
    {
      var u := GetUser(user);
      var field: Field;
      if u.deafened {
        if !callOk {
          return Failure(UndeafenError);
        }
        u.SetDeaf(false);
        field := Field(Undeafened, Literal(u.mention));
      } else {
        if u.permissions.deafenMembers {
          return Silent;
        }
        if !callOk {
          return Failure(DeafenError);
        }
        u.SetDeaf(false);
        field := Field(Deafened, Literal(u.mention));
      }
      reply := Embed(ProfileEmbed, u.id, Some(field));
    }

    /** `kick` (declared `KicK`): no gate in the handler. */
    method Kick(user: Member, reason: Option<string>, callOk: bool) returns (reply: Reply)
      modifies GetUser(user)
      ensures Step(reply, GetUser(user).State()) == KickStep(old(GetUser(user).State()), reason, callOk)
    {
      var why := reason.GetOr(DefaultReason);
      var u := GetUser(user);
      if !callOk {
        return Failure(KickError);
      }
      u.Kick(why);
      reply := Embed(ProfileEmbed, u.id, Some(Field(KickedField, Literal(Quoted(why)))));
    }

    /** `ban`: no gate in the handler; `days` defaults to 0 and is bounded by the registration layer. */
    method Ban(user: Member, days: Option<int>, reason: Option<string>, callOk: bool) returns (reply: Reply)
      requires 0 <= days.GetOr(0) <= 7
      modifies GetUser(user)
      ensures Step(reply, GetUser(user).State()) == BanStep(old(GetUser(user).State()), days, reason, callOk)
    {
      var prune := days.GetOr(0);
      var why := reason.GetOr(DefaultReason);
      var u := GetUser(user);
      if !callOk {
        return Failure(BanError);
      }
      u.Ban(prune, why);
      reply := Embed(ProfileEmbed, u.id, Some(Field(BannedField, Literal(Quoted(why)))));
    }
  }
}
