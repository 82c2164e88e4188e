/** Who may act on a ticket and who may see it: the staff test shared by the
    claim and close buttons, the permission overwrites a new ticket channel
    is created with, and the platform's resolution of overwrites into the
    permissions a member ends up with. */
module Access {
  import opened Platform

  /** `allowedRoles.some(r => roles.has(r))`: the member holds at least one
      of the configured staff roles. */
  function IsStaff(allowedRoles: seq<Id>, roles: set<Id>): (staff: bool)
    ensures staff <==> exists i :: 0 <= i < |allowedRoles| && allowedRoles[i] in roles
  {
    if allowedRoles == [] then false
    else if allowedRoles[0] in roles then true
    else
      var rest := IsStaff(allowedRoles[1..], roles);
      assert forall i :: 1 <= i < |allowedRoles| ==> allowedRoles[i] == allowedRoles[1..][i - 1];
      rest
  }

  /** The overwrite that lets a staff role see a ticket channel. */
  function StaffOverwrite(role: Id): Overwrite {
    Overwrite(role, RoleTarget, {ViewChannel}, {})
  }

  /** One staff overwrite per configured role, in the configured order. */
  function StaffOverwrites(roles: seq<Id>): (ows: seq<Overwrite>)
    ensures |ows| == |roles|
    ensures forall i :: 0 <= i < |roles| ==> ows[i] == StaffOverwrite(roles[i])
  {
    if roles == [] then [] else [StaffOverwrite(roles[0])] + StaffOverwrites(roles[1..])
  }

  /** The overwrite list a ticket channel is created with: the everyone-role
      (whose id is the guild id) loses ViewChannel, the requester gains
      ViewChannel and SendMessages, each staff role gains ViewChannel. */
  function TicketOverwrites(guildId: Id, requester: Id, allowedRoles: seq<Id>): (ows: seq<Overwrite>)
    ensures |ows| == 2 + |allowedRoles|
    ensures ows[0] == Overwrite(guildId, RoleTarget, {}, {ViewChannel})
    ensures ows[1] == Overwrite(requester, MemberTarget, {ViewChannel, SendMessages}, {})
    ensures forall i :: 0 <= i < |allowedRoles| ==> ows[2 + i] == StaffOverwrite(allowedRoles[i])
  {
    [Overwrite(guildId, RoleTarget, {}, {ViewChannel}),
     Overwrite(requester, MemberTarget, {ViewChannel, SendMessages}, {})]
    + StaffOverwrites(allowedRoles)
  }

  // ---------------------------------------------------------------------
  // How the platform turns an overwrite list into a member's permissions:
  // the everyone-role overwrite first, then the union of the overwrites of
  // the member's other roles (denies before allows), then the member's own
  // overwrite. Administrator bypass is not part of this model.
  // ---------------------------------------------------------------------

  /** The first overwrite of the given kind for `target`, if any. */
  function OverwriteOf(ows: seq<Overwrite>, target: Id, kind: TargetKind): (o: Option<Overwrite>)
    ensures o.Some? ==> o.value in ows && o.value.target == target && o.value.kind == kind
    ensures o.None? ==> forall w :: w in ows ==> !(w.target == target && w.kind == kind)
  {
    if ows == [] then None
    else if ows[0].target == target && ows[0].kind == kind then Some(ows[0])
    else OverwriteOf(ows[1..], target, kind)
  }

  function Overlay(perms: set<Permission>, o: Option<Overwrite>): set<Permission> {
    match o
    case None => perms
    case Some(w) => (perms - w.deny) + w.allow
  }

  /** Does this overwrite belong to one of `roles` other than the everyone-role? */
  predicate AppliesToRoles(w: Overwrite, guildId: Id, roles: set<Id>) {
    w.kind == RoleTarget && w.target != guildId && w.target in roles
  }

  function RoleAllow(ows: seq<Overwrite>, guildId: Id, roles: set<Id>): set<Permission> {
    if ows == [] then {}
    else (if AppliesToRoles(ows[0], guildId, roles) then ows[0].allow else {}) + RoleAllow(ows[1..], guildId, roles)
  }

  function RoleDeny(ows: seq<Overwrite>, guildId: Id, roles: set<Id>): set<Permission> {
    if ows == [] then {}
    else (if AppliesToRoles(ows[0], guildId, roles) then ows[0].deny else {}) + RoleDeny(ows[1..], guildId, roles)
  }

  /** The permissions `m` has in a channel with overwrites `ows`, starting
      from the permissions `base` its roles grant guild-wide. */
  function Effective(ows: seq<Overwrite>, guildId: Id, base: set<Permission>, m: Member): set<Permission> {
    var everyone := Overlay(base, OverwriteOf(ows, guildId, RoleTarget));
    var byRoles := (everyone - RoleDeny(ows, guildId, m.roles)) + RoleAllow(ows, guildId, m.roles);
    Overlay(byRoles, OverwriteOf(ows, m.id, MemberTarget))
  }

  lemma {:induction false} StaffOverwritesDenyNothing(roles: seq<Id>, guildId: Id, held: set<Id>)
    ensures RoleDeny(StaffOverwrites(roles), guildId, held) == {}
  {
    if roles != [] {
      StaffOverwritesDenyNothing(roles[1..], guildId, held);
    }
  }

  lemma {:induction false} StaffOverwritesAllow(roles: seq<Id>, guildId: Id, held: set<Id>)
    requires guildId !in roles
    ensures ViewChannel in RoleAllow(StaffOverwrites(roles), guildId, held) <==> IsStaff(roles, held)
    ensures SendMessages !in RoleAllow(StaffOverwrites(roles), guildId, held)
  {
    if roles != [] {
      StaffOverwritesAllow(roles[1..], guildId, held);
      assert StaffOverwrites(roles)[1..] == StaffOverwrites(roles[1..]);
    }
  }

  lemma StaffOverwritesNoMember(roles: seq<Id>, id: Id)
    ensures OverwriteOf(StaffOverwrites(roles), id, MemberTarget) == None
  {
  }

  /** A ticket channel is visible to exactly the requester and the holders of
      a staff role, whatever the guild-wide permissions; the requester can
      also write in it. The everyone-role must not itself be a staff role. */
  lemma {:induction false} TicketVisibility(guildId: Id, requester: Id, allowedRoles: seq<Id>, base: set<Permission>, m: Member)
    requires guildId !in allowedRoles
    ensures ViewChannel in Effective(TicketOverwrites(guildId, requester, allowedRoles), guildId, base, m)
            <==> m.id == requester || IsStaff(allowedRoles, m.roles)
    ensures m.id == requester ==> SendMessages in Effective(TicketOverwrites(guildId, requester, allowedRoles), guildId, base, m)
  {
    var ows := TicketOverwrites(guildId, requester, allowedRoles);
    var staff := StaffOverwrites(allowedRoles);
    assert ows[1..] == [ows[1]] + staff;
    assert ows[2..] == staff;
    assert OverwriteOf(ows, guildId, RoleTarget) == Some(ows[0]);
    StaffOverwritesNoMember(allowedRoles, m.id);
    assert OverwriteOf(ows, m.id, MemberTarget) == (if m.id == requester then Some(ows[1]) else None);
    StaffOverwritesDenyNothing(allowedRoles, guildId, m.roles);
    StaffOverwritesAllow(allowedRoles, guildId, m.roles);
    assert RoleDeny(ows, guildId, m.roles) == RoleDeny(staff, guildId, m.roles);
    assert RoleAllow(ows, guildId, m.roles) == RoleAllow(staff, guildId, m.roles);
  }
}
