/** The per-command decision table of the user commands, one function per
    slash command. Each takes the resolved target's state and whether the one
    external call would complete, and gives the reply and the target's new
    state. The handlers of `Interaction.UserModule` are proved to follow it. */
module Commands {
  import opened Wrappers
  import opened Text
  import opened Members
  import opened Replies

  /** The outcome of one invocation: what was sent back, and the member afterwards. */
  datatype Step = Step(reply: Reply, after: MemberState)

  /** `display` chooses its renderer by option: 0, 1 and 2 pick the user, guild
      and full profiles; every other value, and no value, the default profile. */
  function RendererFor(option: Option<int>): (r: Renderer)
    ensures r == UserProfileEmbed <==> option == Some(0)
    ensures r == GuildProfileEmbed <==> option == Some(1)
    ensures r == AllProfileEmbed <==> option == Some(2)
    ensures r == ProfileEmbed <==> option.None? || option.value !in {0, 1, 2}
  {
    match option
    case Some(0) => UserProfileEmbed
    case Some(1) => GuildProfileEmbed
    case Some(2) => AllProfileEmbed
    case _ => ProfileEmbed
  }

  /** `display`: a profile of the target, with no added field and no change. */
  function DisplayStep(s: MemberState, option: Option<int>): (r: Step)
    ensures r.after == s
    ensures r.reply.Embed? && r.reply.subject == s.id && r.reply.field.None?
    ensures r.reply.renderer == RendererFor(option)
  {
    Step(Embed(RendererFor(option), s.id, None), s)
  }

  /** `roles`: list the target's roles, or toggle one role. */
  function RolesStep(s: MemberState, role: Option<Role>, callOk: bool): (r: Step)
    // without a role: nothing changes, and the one field lists every role under `Roles [n]`
    ensures role.None? ==> (r.after == s
      && r.reply == Embed(ProfileEmbed, s.id, Some(Field(RolesFieldName(|s.roles|), RoleListing(s.roles)))))
    // the gate reads the target's own ManageRoles and answers nothing when it is held
    ensures role.Some? ==> (r.reply == Silent <==> s.permissions.manageRoles)
    ensures role.Some? && s.permissions.manageRoles ==> r.after == s
    // a failed call names the attempted action and changes nothing
    ensures role.Some? && !s.permissions.manageRoles && !callOk ==>
      r.after == s && r.reply == Failure(if role.value in s.roles then RemoveRoleError else AddRoleError)
    // a completed call flips the membership of that one role and of nothing else
    ensures role.Some? && !s.permissions.manageRoles && callOk ==>
      r.after == s.(roles := r.after.roles)
      && (forall x :: x in r.after.roles <==> (x in s.roles <==> x != role.value))
      && r.reply == Embed(ProfileEmbed, s.id,
           Some(Field(if role.value in s.roles then RoleRemoved else RoleAdded, Literal(role.value.mention))))
  {
    match role
    case None =>
      Step(Embed(ProfileEmbed, s.id, Some(Field(RolesFieldName(|s.roles|), RoleListing(s.roles)))), s)
    case Some(rl) =>
      if s.permissions.manageRoles then Step(Silent, s)
      else if rl in s.roles then
        if !callOk then Step(Failure(RemoveRoleError), s)
        else Step(Embed(ProfileEmbed, s.id, Some(Field(RoleRemoved, Literal(rl.mention)))), s.(roles := s.roles - {rl}))
      else
        if !callOk then Step(Failure(AddRoleError), s)
        else Step(Embed(ProfileEmbed, s.id, Some(Field(RoleAdded, Literal(rl.mention)))), s.(roles := s.roles + {rl}))
  }

  /** `nick`: show whether the target has a nickname, or set it. */
  function NickStep(s: MemberState, nickname: Option<string>, callOk: bool): (r: Step)
    // without a nickname: nothing changes; the field shows `Undefined` for a
    // missing or blank nickname and the target's mention otherwise
    ensures nickname.None? ==> (r.after == s
      && r.reply == Embed(ProfileEmbed, s.id,
           Some(Field(NicknameField, Literal(if IsNullOrWhiteSpace(s.nickname) then UndefinedNickname else s.mention)))))
    // the gate reads the target's own ManageNicknames and answers nothing when it is held
    ensures nickname.Some? ==> (r.reply == Silent <==> s.permissions.manageNicknames)
    ensures nickname.Some? && s.permissions.manageNicknames ==> r.after == s
    ensures nickname.Some? && !s.permissions.manageNicknames && !callOk ==>
      r.after == s && r.reply == Failure(NicknameError)
    // a completed call sets the nickname to the argument as given, and nothing else
    ensures nickname.Some? && !s.permissions.manageNicknames && callOk ==>
      r.after == s.(nickname := nickname)
      && r.reply == Embed(ProfileEmbed, s.id, Some(Field(NicknameSet, Literal(s.mention))))
  {
    match nickname
    case None =>
      var shown := if IsNullOrWhiteSpace(s.nickname) then UndefinedNickname else s.mention;
      Step(Embed(ProfileEmbed, s.id, Some(Field(NicknameField, Literal(shown)))), s)
    case Some(nick) =>
      if s.permissions.manageNicknames then Step(Silent, s)
      else if !callOk then Step(Failure(NicknameError), s)
      else Step(Embed(ProfileEmbed, s.id, Some(Field(NicknameSet, Literal(s.mention)))), s.(nickname := Some(nick)))
  }

  /** `mute`: un-mute a muted target without a gate; mute any other target
      unless it holds MuteMembers. */
  function MuteStep(s: MemberState, callOk: bool): (r: Step)
    // only the muted flag can change
    ensures r.after == s.(muted := r.after.muted)
    // only the turning-on branch is gated, on the target's own MuteMembers
    ensures r.reply == Silent <==> !s.muted && s.permissions.muteMembers
    // a reply with a field exactly when the call completed, and then the flag flipped
    ensures r.reply.Embed? <==> callOk && (s.muted || !s.permissions.muteMembers)
    ensures r.reply.Embed? ==> (r.after.muted == !s.muted
      && r.reply == Embed(ProfileEmbed, s.id, Some(Field(if s.muted then Unmuted else Muted, Literal(s.mention)))))
    ensures !r.reply.Embed? ==> r.after == s
    ensures r.reply.Failure? ==> r.reply.title == if s.muted then UnmuteError else MuteError
  {
    if s.muted then
      if !callOk then Step(Failure(UnmuteError), s)
      else Step(Embed(ProfileEmbed, s.id, Some(Field(Unmuted, Literal(s.mention)))), s.(muted := false))
    else if s.permissions.muteMembers then Step(Silent, s)
    else if !callOk then Step(Failure(MuteError), s)
    else Step(Embed(ProfileEmbed, s.id, Some(Field(Muted, Literal(s.mention)))), s.(muted := true))
  }

  /** `deafen`, as written: both branches write `Deaf = false`, so a target is
      never deafened by it, even when the reply says "Deafened". */
  function DeafenStep(s: MemberState, callOk: bool): (r: Step)
    // only the deafened flag can change, and never to true
    ensures r.after == s.(deafened := r.after.deafened)
    ensures r.after.deafened ==> s.deafened
    // only the turning-on branch is gated, on the target's own DeafenMembers
    ensures r.reply == Silent <==> !s.deafened && s.permissions.deafenMembers
    ensures r.reply.Embed? <==> callOk && (s.deafened || !s.permissions.deafenMembers)
    ensures r.reply.Embed? ==> (!r.after.deafened
      && r.reply == Embed(ProfileEmbed, s.id, Some(Field(if s.deafened then Undeafened else Deafened, Literal(s.mention)))))
    ensures !r.reply.Embed? ==> r.after == s
    ensures r.reply.Failure? ==> r.reply.title == if s.deafened then UndeafenError else DeafenError
  {
    if s.deafened then
      if !callOk then Step(Failure(UndeafenError), s)
      else Step(Embed(ProfileEmbed, s.id, Some(Field(Undeafened, Literal(s.mention)))), s.(deafened := false))
    else if s.permissions.deafenMembers then Step(Silent, s)
    else if !callOk then Step(Failure(DeafenError), s)
    else Step(Embed(ProfileEmbed, s.id, Some(Field(Deafened, Literal(s.mention)))), s.(deafened := false))
  }

  /** `deafen` as its description and its reply text intend it: the second
      branch writes `Deaf = true`. */
  function IntendedDeafenStep(s: MemberState, callOk: bool): (r: Step)
    ensures r.after == s.(deafened := r.after.deafened)
    ensures r.reply == Silent <==> !s.deafened && s.permissions.deafenMembers
    ensures r.reply.Embed? <==> callOk && (s.deafened || !s.permissions.deafenMembers)
    // a reply with a field means the flag flipped, and the field says which way
    ensures r.reply.Embed? ==> (r.after.deafened == !s.deafened
      && r.reply == Embed(ProfileEmbed, s.id, Some(Field(if r.after.deafened then Deafened else Undeafened, Literal(s.mention)))))
    ensures !r.reply.Embed? ==> r.after == s
  {
    if s.deafened then
      if !callOk then Step(Failure(UndeafenError), s)
      else Step(Embed(ProfileEmbed, s.id, Some(Field(Undeafened, Literal(s.mention)))), s.(deafened := false))
    else if s.permissions.deafenMembers then Step(Silent, s)
    else if !callOk then Step(Failure(DeafenError), s)
    else Step(Embed(ProfileEmbed, s.id, Some(Field(Deafened, Literal(s.mention)))), s.(deafened := true))
  }

  /** `kick`: no gate in the handler; the reason defaults to "There is no reason.". */
  function KickStep(s: MemberState, reason: Option<string>, callOk: bool): (r: Step)
    ensures r.reply != Silent
    ensures !callOk ==> r.after == s && r.reply == Failure(KickError)
    ensures callOk ==> (r.after == s.(standing := Kicked(reason.GetOr(DefaultReason)))
      && r.reply == Embed(ProfileEmbed, s.id, Some(Field(KickedField, Literal(Quoted(reason.GetOr(DefaultReason)))))))
    ensures callOk && reason.None? ==> r.after.standing == Kicked("There is no reason.")
  {
    var why := reason.GetOr(DefaultReason);
    if !callOk then Step(Failure(KickError), s)
    else Step(Embed(ProfileEmbed, s.id, Some(Field(KickedField, Literal(Quoted(why))))), s.(standing := Kicked(why)))
  }

  /** `ban`: no gate in the handler; `days` is the purge window, 0 to 7, and
      defaults to 0; the reason defaults to "There is no reason.". */
  function BanStep(s: MemberState, days: Option<int>, reason: Option<string>, callOk: bool): (r: Step)
    requires 0 <= days.GetOr(0) <= 7
    ensures r.reply != Silent
    ensures !callOk ==> r.after == s && r.reply == Failure(BanError)
    ensures callOk ==> (r.after == s.(standing := Banned(days.GetOr(0), reason.GetOr(DefaultReason)))
      && r.reply == Embed(ProfileEmbed, s.id, Some(Field(BannedField, Literal(Quoted(reason.GetOr(DefaultReason)))))))
    ensures callOk && days.None? && reason.None? ==> r.after.standing == Banned(0, "There is no reason.")
  {
    var why := reason.GetOr(DefaultReason);
    var prune := days.GetOr(0);
    if !callOk then Step(Failure(BanError), s)
    else Step(Embed(ProfileEmbed, s.id, Some(Field(BannedField, Literal(Quoted(why))))), s.(standing := Banned(prune, why)))
  }

  /** Two completed toggles of one role give back the original role set: the
      first adds what the second removes, or the other way round. */
  lemma RolesToggleTwice(s: MemberState, role: Role)
    requires !s.permissions.manageRoles
    ensures var once := RolesStep(s, Some(role), true);
      var twice := RolesStep(once.after, Some(role), true);
      twice.after == s
      && once.reply.field.value.name == (if role in s.roles then RoleRemoved else RoleAdded)
      && twice.reply.field.value.name == (if role in s.roles then RoleAdded else RoleRemoved)
  {
  }

  /** Two completed `mute` calls give back the original flag when the target
      lacks MuteMembers; when it holds it, a muted target ends un-muted, since
      only the turning-on branch is gated. */
  lemma MuteTwice(s: MemberState)
    ensures var once := MuteStep(s, true);
      var twice := MuteStep(once.after, true);
      (!s.permissions.muteMembers ==> twice.after == s && once.reply.Embed? && twice.reply.Embed?)
      && (s.permissions.muteMembers && s.muted ==> once.reply.Embed? && twice.reply == Silent && !twice.after.muted)
      && (s.permissions.muteMembers && !s.muted ==> once.reply == Silent && twice.after == s)
  {
  }

  /** The `deafen` toggle does not round-trip as written: a target that starts
      deafened ends un-deafened after any number of completed calls, and a
      "Deafened" reply leaves the target exactly as it was. */
  lemma DeafenDoesNotToggle(s: MemberState)
    ensures s.deafened ==> !DeafenStep(DeafenStep(s, true).after, true).after.deafened
    ensures !s.deafened && !s.permissions.deafenMembers ==>
      DeafenStep(s, true).reply.field == Some(Field(Deafened, Literal(s.mention)))
      && DeafenStep(s, true).after == s
  {
  }

  /** With the intended write, two completed calls give back the original flag
      when the target lacks DeafenMembers. */
  lemma IntendedDeafenTwice(s: MemberState)
    requires !s.permissions.deafenMembers
    ensures IntendedDeafenStep(IntendedDeafenStep(s, true).after, true).after == s
  {
  }
}
