/** The command router: one entry per slash command of the `user` group,
    composing target resolution, the per-command decision table and the reply.
    Successive invocations on one member are chained by `Run`. */
module Router {
  import opened Wrappers
  import opened Members
  import opened Replies
  import opened Commands

  /** A typed invocation of one command of the group, with its parameters. */
  datatype Invocation =
    | DisplayCmd(option: Option<int>)
    | RolesCmd(role: Option<Role>)
    | NickCmd(nickname: Option<string>)
    | MuteCmd
    | DeafenCmd
    | KickCmd(reason: Option<string>)
    | BanCmd(days: Option<int>, reason: Option<string>)
  {
    /** What the registration layer enforces before a handler runs: a ban's days, 0 when omitted, lie in 0..7. */
    predicate WellFormed()
    {
      BanCmd? ==> 0 <= days.GetOr(0) <= 7
    }

    /** The invocations that take a query branch. */
    predicate IsQuery()
    {
      DisplayCmd? || (RolesCmd? && role.None?) || (NickCmd? && nickname.None?)
    }
  }

  /** Whether the in-handler gate stops `inv` on target `s`: the TARGET already
      holds the permission that the command would exercise. */
  predicate GateHeld(s: MemberState, inv: Invocation)
  {
    match inv
    case RolesCmd(role) => role.Some? && s.permissions.manageRoles
    case NickCmd(nickname) => nickname.Some? && s.permissions.manageNicknames
    case MuteCmd => !s.muted && s.permissions.muteMembers
    case DeafenCmd => !s.deafened && s.permissions.deafenMembers
    case _ => false
  }

  /** One invocation on the resolved target. */
  function Dispatch(s: MemberState, inv: Invocation, callOk: bool): (r: Step)
    requires inv.WellFormed()
    // silence exactly when the gate holds; an ephemeral failure exactly when the external call failed
    ensures r.reply == Silent <==> GateHeld(s, inv)
    ensures r.reply.Failure? <==> !callOk && !inv.IsQuery() && !GateHeld(s, inv)
    // only a reply with a profile can come with a change; a query never changes anything
    ensures !r.reply.Embed? ==> r.after == s
    ensures inv.IsQuery() ==> r.after == s && r.reply.Embed?
    // the profile shown is the target's, with one outcome field except for `display`
    ensures r.reply.Embed? ==> r.reply.subject == s.id && (r.reply.field.Some? <==> !inv.DisplayCmd?)
    // each command touches only its own part of the member
    ensures r.after.id == s.id && r.after.mention == s.mention && r.after.permissions == s.permissions
    ensures !inv.RolesCmd? ==> r.after.roles == s.roles
    ensures !inv.NickCmd? ==> r.after.nickname == s.nickname
    ensures !inv.MuteCmd? ==> r.after.muted == s.muted
    ensures !inv.DeafenCmd? ==> r.after.deafened == s.deafened
    ensures !inv.KickCmd? && !inv.BanCmd? ==> r.after.standing == s.standing
    // nothing ever deafens a member
    ensures r.after.deafened ==> s.deafened
  {
    match inv
    case DisplayCmd(option) => DisplayStep(s, option)
    case RolesCmd(role) => RolesStep(s, role, callOk)
    case NickCmd(nickname) => NickStep(s, nickname, callOk)
    case MuteCmd => MuteStep(s, callOk)
    case DeafenCmd => DeafenStep(s, callOk)
    case KickCmd(reason) => KickStep(s, reason, callOk)
    case BanCmd(days, reason) => BanStep(s, days, reason, callOk)
  }

  /** `UserTools.GetUser` is not part of this model. Assumed: the explicit
      target when one is given, else the invoker. */
  function Resolve(explicit: Option<MemberState>, invoker: MemberState): MemberState
  {
    explicit.GetOr(invoker)
  }

  /** One invocation as the handler receives it: `kick` and `ban` always name a target. */
  function Handle(invoker: MemberState, explicit: Option<MemberState>, inv: Invocation, callOk: bool): (r: Step)
    requires inv.WellFormed()
    requires inv.KickCmd? || inv.BanCmd? ==> explicit.Some?
    ensures r.reply.Embed? ==> r.reply.subject == (if explicit.Some? then explicit.value.id else invoker.id)
  {
    Dispatch(Resolve(explicit, invoker), inv, callOk)
  }

  /** With an explicit target, the command is silenced exactly when the TARGET
      holds the gate permission. That the invoker then makes no difference at all
      (the first clause) is a consequence of the assumed resolver, not of the gates. */
  lemma GateReadsTarget(invoker: MemberState, other: MemberState, target: MemberState, inv: Invocation, callOk: bool)
    requires inv.WellFormed()
    ensures Handle(invoker, Some(target), inv, callOk) == Handle(other, Some(target), inv, callOk)
    ensures Handle(invoker, Some(target), inv, callOk).reply == Silent <==> GateHeld(target, inv)
  {
  }

  /** One invocation and whether its external call completed. */
  datatype Call = Call(inv: Invocation, callOk: bool)

  predicate AllWellFormed(calls: seq<Call>)
  {
    forall i :: 0 <= i < |calls| ==> calls[i].inv.WellFormed()
  }

  /** The member after a sequence of invocations on it, one after the other. */
  function Run(s: MemberState, calls: seq<Call>): MemberState
    requires AllWellFormed(calls)
    decreases |calls|
  {
    if calls == [] then s
    else Run(Dispatch(s, calls[0].inv, calls[0].callOk).after, calls[1..])
  }

  /** No sequence of invocations deafens a member that was not deafened. */
  lemma {:induction false} RunNeverDeafens(s: MemberState, calls: seq<Call>)
    requires AllWellFormed(calls)
    ensures Run(s, calls).deafened ==> s.deafened
    decreases |calls|
  {
    if calls != [] {
      RunNeverDeafens(Dispatch(s, calls[0].inv, calls[0].callOk).after, calls[1..]);
    }
  }

  /** When every external call fails, a sequence of invocations leaves the member as it was. */
  lemma {:induction false} RunFailedCallsChangeNothing(s: MemberState, calls: seq<Call>)
    requires AllWellFormed(calls)
    requires forall i :: 0 <= i < |calls| ==> !calls[i].callOk
    ensures Run(s, calls) == s
    decreases |calls|
  {
    if calls != [] {
      RunFailedCallsChangeNothing(s, calls[1..]);
    }
  }

  /** Queries alone never change the member. */
  lemma {:induction false} RunQueriesChangeNothing(s: MemberState, calls: seq<Call>)
    requires AllWellFormed(calls)
    requires forall i :: 0 <= i < |calls| ==> calls[i].inv.IsQuery()
    ensures Run(s, calls) == s
    decreases |calls|
  {
    if calls != [] {
      RunQueriesChangeNothing(s, calls[1..]);
    }
  }

  /** Across any sequence of invocations, a part of the member changes only if
      some invocation is the command that owns it. Identity and permissions never
      change; for permissions this holds by construction, since the model keeps
      them constant. */
  lemma {:induction false} RunChangesOnlyOwnedParts(s: MemberState, calls: seq<Call>)
    requires AllWellFormed(calls)
    ensures var t := Run(s, calls);
      t.id == s.id && t.mention == s.mention && t.permissions == s.permissions
    ensures (forall i :: 0 <= i < |calls| ==> !calls[i].inv.RolesCmd?) ==> Run(s, calls).roles == s.roles
    ensures (forall i :: 0 <= i < |calls| ==> !calls[i].inv.NickCmd?) ==> Run(s, calls).nickname == s.nickname
    ensures (forall i :: 0 <= i < |calls| ==> !calls[i].inv.MuteCmd?) ==> Run(s, calls).muted == s.muted
    ensures (forall i :: 0 <= i < |calls| ==> !calls[i].inv.DeafenCmd?) ==> Run(s, calls).deafened == s.deafened
    ensures (forall i :: 0 <= i < |calls| ==> !calls[i].inv.KickCmd? && !calls[i].inv.BanCmd?) ==>
      Run(s, calls).standing == s.standing
    decreases |calls|
  {
    if calls != [] {
      RunChangesOnlyOwnedParts(Dispatch(s, calls[0].inv, calls[0].callOk).after, calls[1..]);
    }
  }
}
